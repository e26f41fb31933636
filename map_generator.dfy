/**
 * AMapGenerator: the layered room map. GenerateBaseMap lays MapLayers * MapDensity nodes out
 * on a grid and spawns one actor per node; GenerateRandomRooms draws a value per node and
 * classifies it into a room type through a chain of probability thresholds.
 *
 * The engine calls are parameters: whether SpawnActor succeeded at an index, whether the
 * node's actor has a static mesh, whether the dynamic material was created, and the value
 * FMath::RandRange drew at that index.
 */
module MapGeneration {
  import opened Wrappers

  /** NodeType: the room kinds the generator assigns. */
  datatype NodeType = NormalBattle | BossBattle | EventRoom | RewardRoom | ShopRoom

  /** An FVector whose components are the generator's integer grid coordinates. */
  datatype Location = Location(x: int, y: int, z: int)

  /** A spawned actor, known here only by where it was spawned. */
  datatype Actor = Actor(location: Location)

  /** FMapNode: the actor standing for the node (None for nullptr) and its room kind. */
  datatype MapNode = MapNode(nodeActor: Option<Actor>, node: NodeType)

  /** The six room probabilities of the generator. */
  datatype Probabilities = Probabilities(normalBattle: real, bossBattle: real, eventRoom: real,
                                         rewardRoom: real, shopRoom: real, noRoom: real)

  /** The constructor's probabilities. */
  const DefaultProbabilities := Probabilities(0.2, 0.05, 0.1, 0.1, 0.1, 0.3)

  predicate NonNegative(p: Probabilities)
  {
    p.normalBattle >= 0.0 && p.bossBattle >= 0.0 && p.eventRoom >= 0.0
    && p.rewardRoom >= 0.0 && p.shopRoom >= 0.0 && p.noRoom >= 0.0
  }

  /** MaxProbabilities: the upper end of the drawn range. */
  function MaxProbabilities(p: Probabilities): real
  {
    p.normalBattle + p.bossBattle + p.eventRoom + p.rewardRoom + p.shopRoom + p.noRoom
  }

  /** MaxProbabilityBossBattle */
  function BossThreshold(p: Probabilities): real
  {
    p.bossBattle + p.normalBattle
  }

  /** MaxProbabilityEventRoom */
  function EventThreshold(p: Probabilities): real
  {
    BossThreshold(p) + p.eventRoom
  }

  /** MaxProbabilityRewardRoom: the event and reward probabilities only, not a running sum. */
  function RewardThreshold(p: Probabilities): real
  {
    p.eventRoom + p.rewardRoom
  }

  /** MaxProbabilityShoopRoom */
  function ShopThreshold(p: Probabilities): real
  {
    RewardThreshold(p) + p.shopRoom
  }

  /** The if/else chain on a drawn value: the first branch whose condition holds decides; None is "No Room". */
  function Classify(p: Probabilities, v: real): Option<NodeType>
  {
    if v < p.normalBattle then Some(NormalBattle)
    else if v >= p.normalBattle && v < BossThreshold(p) then Some(BossBattle)
    else if v >= BossThreshold(p) && v < EventThreshold(p) then Some(EventRoom)
    else if v >= EventThreshold(p) && v < RewardThreshold(p) then Some(RewardRoom)
    else if v >= RewardThreshold(p) && v < ShopThreshold(p) then Some(ShopRoom)
    else None
  }

  /**
   * The band of drawn values each outcome takes, with the bands written as sums of the
   * probabilities. The reward band starts at the event threshold but ends at Event+Reward.
   */
  lemma ClassifyBands(p: Probabilities, v: real)
    requires NonNegative(p)
    ensures Classify(p, v) == Some(NormalBattle) <==> v < p.normalBattle
    ensures Classify(p, v) == Some(BossBattle)
        <==> p.normalBattle <= v < p.normalBattle + p.bossBattle
    ensures Classify(p, v) == Some(EventRoom)
        <==> p.normalBattle + p.bossBattle <= v < p.normalBattle + p.bossBattle + p.eventRoom
    ensures Classify(p, v) == Some(RewardRoom)
        <==> p.normalBattle + p.bossBattle + p.eventRoom <= v < p.eventRoom + p.rewardRoom
    ensures Classify(p, v) == Some(ShopRoom)
        <==> p.normalBattle + p.bossBattle + p.eventRoom <= v
             && p.eventRoom + p.rewardRoom <= v < p.eventRoom + p.rewardRoom + p.shopRoom
    ensures Classify(p, v) == None
        <==> p.normalBattle + p.bossBattle + p.eventRoom <= v
             && p.eventRoom + p.rewardRoom + p.shopRoom <= v
  {
  }

  /** Some drawn value in [0, MaxProbabilities] gives a reward room exactly when Normal+Boss < Reward. */
  lemma RewardRoomReachable(p: Probabilities)
    requires NonNegative(p)
    ensures (exists v :: 0.0 <= v <= MaxProbabilities(p) && Classify(p, v) == Some(RewardRoom))
        <==> p.normalBattle + p.bossBattle < p.rewardRoom
  {
    if p.normalBattle + p.bossBattle < p.rewardRoom {
      var v := EventThreshold(p);
      assert 0.0 <= v <= MaxProbabilities(p) && Classify(p, v) == Some(RewardRoom);
    }
    if exists v :: 0.0 <= v <= MaxProbabilities(p) && Classify(p, v) == Some(RewardRoom) {
      var v :| 0.0 <= v <= MaxProbabilities(p) && Classify(p, v) == Some(RewardRoom);
      ClassifyBands(p, v);
    }
  }

  /** Some drawn value in [0, MaxProbabilities] gives a shop exactly when Shop > 0 and Normal+Boss < Reward+Shop. */
  lemma ShopRoomReachable(p: Probabilities)
    requires NonNegative(p)
    ensures (exists v :: 0.0 <= v <= MaxProbabilities(p) && Classify(p, v) == Some(ShopRoom))
        <==> p.shopRoom > 0.0 && p.normalBattle + p.bossBattle < p.rewardRoom + p.shopRoom
  {
    if p.shopRoom > 0.0 && p.normalBattle + p.bossBattle < p.rewardRoom + p.shopRoom {
      var v := if EventThreshold(p) <= RewardThreshold(p) then RewardThreshold(p) else EventThreshold(p);
      ClassifyBands(p, v);
      assert 0.0 <= v <= MaxProbabilities(p) && Classify(p, v) == Some(ShopRoom);
    }
    if exists v :: 0.0 <= v <= MaxProbabilities(p) && Classify(p, v) == Some(ShopRoom) {
      var v :| 0.0 <= v <= MaxProbabilities(p) && Classify(p, v) == Some(ShopRoom);
      ClassifyBands(p, v);
    }
  }

  /** With the constructor's probabilities no drawn value gives a reward room or a shop. */
  lemma DefaultsNeverRewardOrShop(v: real)
    ensures Classify(DefaultProbabilities, v) != Some(RewardRoom)
    ensures Classify(DefaultProbabilities, v) != Some(ShopRoom)
  {
    ClassifyBands(DefaultProbabilities, v);
  }

  /**
   * A node after the room pass: its room kind is set only when the actor has a mesh, the
   * material was created and the draw landed in a room band.
   */
  function RoomNode(n: MapNode, meshPresent: bool, materialCreated: bool, p: Probabilities, v: real): MapNode
  {
    if meshPresent && materialCreated then
      match Classify(p, v)
      case Some(kind) => n.(node := kind)
      case None => n
    else n
  }

  /** The room pass never touches a node's actor and assigns exactly the classified kind. */
  lemma RoomNodeEffect(n: MapNode, meshPresent: bool, materialCreated: bool, p: Probabilities, v: real)
    ensures RoomNode(n, meshPresent, materialCreated, p, v).nodeActor == n.nodeActor
    ensures !meshPresent || !materialCreated || Classify(p, v).None?
            ==> RoomNode(n, meshPresent, materialCreated, p, v) == n
    ensures meshPresent && materialCreated && Classify(p, v).Some?
            ==> RoomNode(n, meshPresent, materialCreated, p, v).node == Classify(p, v).value
  {
  }

  /** The location GenerateBaseMap computes for node `index`. */
  function NodeLocation(index: int, mapLayers: int, distanceBetweenNodes: int, distanceBetweenLayers: int): Location
    requires mapLayers != 0
  {
    var column := index / mapLayers;
    Location(((index + mapLayers * column) % mapLayers) * distanceBetweenNodes,
             ((index + mapLayers * column) / mapLayers) * distanceBetweenLayers,
             0)
  }

  /** Euclidean quotient and remainder are determined by n == l * q + r with 0 <= r < |l|. */
  lemma DivModUnique(n: int, l: int, q: int, r: int)
    requires l != 0 && 0 <= r < (if l < 0 then -l else l) && n == l * q + r
    ensures n / l == q && n % l == r
  {
    var q0, r0 := n / l, n % l;
    assert l * (q - q0) == r0 - r;
    if q != q0 {
      var k := q - q0;
      if k > 0 {
        assert l * k == l * (k - 1) + l;
        if l > 0 { MulNonNegative(l, k - 1); } else { MulNonNegative(-l, k - 1); }
      } else {
        assert l * k == l * (k + 1) - l;
        if l > 0 { MulNonNegative(l, -(k + 1)); } else { MulNonNegative(-l, -(k + 1)); }
      }
    }
  }

  lemma MulNonNegative(a: int, b: int)
    requires a >= 0 && b >= 0
    ensures a * b >= 0
  {
  }

  /**
   * Adding MapLayers * Column leaves the remainder alone and doubles the quotient:
   * X = (Index % MapLayers) * DistanceBetweenNodes, Y = 2 * (Index / MapLayers) * DistanceBetweenLayers.
   */
  lemma NodeLocationClosedForm(index: int, mapLayers: int, distanceBetweenNodes: int, distanceBetweenLayers: int)
    requires index >= 0 && mapLayers != 0
    ensures NodeLocation(index, mapLayers, distanceBetweenNodes, distanceBetweenLayers)
         == Location((index % mapLayers) * distanceBetweenNodes, 2 * (index / mapLayers) * distanceBetweenLayers, 0)
  {
    var column, r := index / mapLayers, index % mapLayers;
    assert index + mapLayers * column == mapLayers * (2 * column) + r;
    DivModUnique(index + mapLayers * column, mapLayers, 2 * column, r);
  }

  /** With MapLayers > 0, an index below MapLayers * MapDensity lies in a column of [0, MapDensity). */
  lemma ColumnInRange(index: int, mapLayers: int, mapDensity: int)
    requires mapLayers > 0 && 0 <= index < mapLayers * mapDensity
    ensures 0 <= index / mapLayers < mapDensity
  {
    var column := index / mapLayers;
    assert mapLayers * column <= index;
  }

  /** AMapGenerator with the fields GenerateBaseMap and GenerateRandomRooms use. */
  class MapGenerator {
    var mapLayers: int
    var mapDensity: int
    var maxMapConections: int
    var distanceBetweenNodes: int
    var distanceBetweenLayers: int
    var probabilityNormalBattle: real
    var probabilityBossBattle: real
    var probabilityEventRoom: real
    var probabilityRewardRoom: real
    var probabilityShopRoom: real
    var probabilityNoRoom: real
    /** BaseNode, the template every map entry starts from. */
    var baseNode: MapNode
    /** MapArray */
    var mapArray: array<MapNode>

    /** MaxNodes */
    function MaxNodes(): int
      reads this
    {
      mapLayers * mapDensity
    }

    function Probs(): Probabilities
      reads this
    {
      Probabilities(probabilityNormalBattle, probabilityBossBattle, probabilityEventRoom,
                    probabilityRewardRoom, probabilityShopRoom, probabilityNoRoom)
    }

    /** The entry GenerateBaseMap leaves at `index`, given whether its actor was spawned. */
    function BaseEntry(index: int, spawned: bool): MapNode
      reads this
      requires mapLayers != 0
    {
      baseNode.(nodeActor := if spawned then Some(Actor(NodeLocation(index, mapLayers, distanceBetweenNodes, distanceBetweenLayers))) else None)
    }

    /**
     * The constructor's defaults. BaseNode is FMapNode() (no actor); its room kind is a
     * default not given by the code, so it is a parameter.
     */
    constructor(initialRoom: NodeType)
      ensures mapLayers == 15 && mapDensity == 7 && maxMapConections == 4
      ensures distanceBetweenNodes == 50 && distanceBetweenLayers == 100
      ensures Probs() == DefaultProbabilities
      ensures baseNode == MapNode(None, initialRoom)
      ensures mapArray.Length == 0
    {
      mapLayers := 15;
      mapDensity := 7;
      maxMapConections := 4;
      distanceBetweenNodes := 50;
      distanceBetweenLayers := 100;
      probabilityNormalBattle := 0.2;
      probabilityBossBattle := 0.05;
      probabilityEventRoom := 0.1;
      probabilityRewardRoom := 0.1;
      probabilityShopRoom := 0.1;
      probabilityNoRoom := 0.3;
      baseNode := MapNode(None, initialRoom);
      mapArray := new MapNode[0];
    }

    /**
     * MapArray gets MaxNodes copies of BaseNode, and entry Index the actor spawned at its
     * grid location (None where SpawnActor returned nullptr).
     */
    method GenerateBaseMap(spawned: seq<bool>)
      requires MaxNodes() >= 0 && |spawned| == MaxNodes()
      modifies this`mapArray
      ensures fresh(mapArray) && mapArray.Length == MaxNodes()
      ensures forall i :: 0 <= i < mapArray.Length ==> mapLayers != 0 && mapArray[i] == BaseEntry(i, spawned[i])
    {
      var maxNodes := mapLayers * mapDensity;
      var template := baseNode;
      var nodes := new MapNode[maxNodes](_ => template);
      for index := 0 to maxNodes
        invariant forall i :: 0 <= i < index ==> mapLayers != 0 && nodes[i] == BaseEntry(i, spawned[i])
        invariant forall i :: index <= i < maxNodes ==> nodes[i] == template
      {
        var location := NodeLocation(index, mapLayers, distanceBetweenNodes, distanceBetweenLayers);
        nodes[index] := nodes[index].(nodeActor := if spawned[index] then Some(Actor(location)) else None);
      }
      mapArray := nodes;
    }

    /**
     * Each of the first MaxNodes entries becomes RoomNode of itself; the entries past MaxNodes
     * are left alone. An entry's actor must be there, since the code dereferences it.
     */
    method GenerateRandomRooms(meshPresent: seq<bool>, materialCreated: seq<bool>, draws: seq<real>)
      requires MaxNodes() <= mapArray.Length
      requires |meshPresent| >= MaxNodes() && |materialCreated| >= MaxNodes() && |draws| >= MaxNodes()
      requires forall i :: 0 <= i < MaxNodes() ==> mapArray[i].nodeActor.Some?
      modifies mapArray
      ensures forall i :: 0 <= i < MaxNodes() ==>
        mapArray[i] == RoomNode(old(mapArray[i]), meshPresent[i], materialCreated[i], Probs(), draws[i])
      ensures forall i :: 0 <= i < mapArray.Length && MaxNodes() <= i ==> mapArray[i] == old(mapArray[i])
    {
      var maxNodes := mapLayers * mapDensity;
      var probabilities := Probs();
      // The loop's condition Index < MaxNodes fails at once when MaxNodes is negative.
      var bound := if maxNodes < 0 then 0 else maxNodes;
      for index := 0 to bound
        invariant forall i :: 0 <= i < index ==>
          mapArray[i] == RoomNode(old(mapArray[i]), meshPresent[i], materialCreated[i], probabilities, draws[i])
        invariant forall i :: index <= i < mapArray.Length ==> mapArray[i] == old(mapArray[i])
      {
        if meshPresent[index] {
          var randomValue := draws[index];
          if materialCreated[index] {
            if randomValue < probabilityNormalBattle {
              mapArray[index] := mapArray[index].(node := NormalBattle);
            } else if randomValue >= probabilityNormalBattle && randomValue < BossThreshold(probabilities) {
              mapArray[index] := mapArray[index].(node := BossBattle);
            } else if randomValue >= BossThreshold(probabilities) && randomValue < EventThreshold(probabilities) {
              mapArray[index] := mapArray[index].(node := EventRoom);
            } else if randomValue >= EventThreshold(probabilities) && randomValue < RewardThreshold(probabilities) {
              mapArray[index] := mapArray[index].(node := RewardRoom);
            } else if randomValue >= RewardThreshold(probabilities) && randomValue < ShopThreshold(probabilities) {
              mapArray[index] := mapArray[index].(node := ShopRoom);
            }
          }
        }
      }
    }

    /** BeginPlay: the base map, then the room pass over it, every spawn having succeeded. */
    method BeginPlay(meshPresent: seq<bool>, materialCreated: seq<bool>, draws: seq<real>)
      requires MaxNodes() >= 0
      requires |meshPresent| >= MaxNodes() && |materialCreated| >= MaxNodes() && |draws| >= MaxNodes()
      modifies this`mapArray
      ensures fresh(mapArray) && mapArray.Length == MaxNodes()
      ensures forall i :: 0 <= i < mapArray.Length ==>
        mapLayers != 0 && mapArray[i] == RoomNode(BaseEntry(i, true), meshPresent[i], materialCreated[i], Probs(), draws[i])
    {
      GenerateBaseMap(seq(MaxNodes(), _ => true));
      GenerateRandomRooms(meshPresent, materialCreated, draws);
    }
  }
}
