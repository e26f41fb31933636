# Triangle circumcircle test and layered room map, in Dafny

This project models two pieces of the GameplayMechanics procedural-level code:

- **`FGeneratedTriangle`** (`generated_triangles.dfy`, module `GeneratedTriangles`). This is the
  triangle record of the Bowyer–Watson triangulator, with its in-circle predicate
  `CircumCircleContains`. The predicate computes the circumcentre with the determinant formula:
  squared vertex norms over the two denominators `Ax(Cy−By)+Bx(Ay−Cy)+Cx(By−Ay)` and
  `Ay(Cx−Bx)+By(Ax−Cx)+Cy(Bx−Ax)`. It then compares the query point's squared distance to the
  centre with that of `Vertex1`. Coordinates are exact reals.
  - The code does not guard a zero denominator. The model makes that case explicit: `Circumcentre`
    and `CircumCircleContains` return `None` exactly when the three vertices are collinear.
  - The proofs show what the computation means:
    - the two denominators are opposite, and both are zero exactly for collinear vertices;
    - the computed centre is equidistant from all three vertices, and it is the only such point;
    - so the answer is "within or on the circle through the three vertices", whichever vertex
      supplies the radius;
    - each vertex is contained;
    - the answer does not depend on the order of the vertices.
- **`AMapGenerator`** (`map_generator.dfy`, module `MapGeneration`). This is the layered room map,
  modelled as a class with the generator's fields and the map as an `array<MapNode>`.
  - `GenerateBaseMap` fills the array with `BaseNode` and gives entry `Index` the actor spawned at
    its grid location. The source's formula `(Index + L·Column) % L` and `(Index + L·Column) / L`
    is proved equal to `X = (Index % L)·dN` and `Y = 2·(Index / L)·dL`, so the column is counted
    twice.
  - `GenerateRandomRooms` classifies a drawn value per node through the first-match threshold
    chain and writes only the node's room kind.
  - The chain is modelled as written, including the threshold `ProbabilityEventRoom +
    ProbabilityRewardRoom`, which is not a running sum. The lemmas state exactly when a reward or
    shop room can occur, and prove that with the constructor's defaults neither ever occurs.

The engine calls become parameters:
- whether `SpawnActor` returned an actor, per index;
- whether the node's actor has a static mesh, per index;
- whether the dynamic material was created, per index;
- the value `FMath::RandRange` drew, per index.

`wrappers.dfy` holds the `Option` type.

All divisions and remainders in `GenerateBaseMap` have a non-negative dividend. On such operands,
Dafny's Euclidean `/` and `%` agree with C++'s truncating ones, for either sign of `MapLayers`.

## Model

| member | source | states |
|---|---|---|
| GeneratedTriangles.NewTriangle | GameplayMechanics/Source/GameplayMechanics/Private/Structs/GeneratedTriangles.cpp:8-11 | the three vertices are stored in argument order and the triangle starts not bad |
| GeneratedTriangles.Circumcentre | GameplayMechanics/Source/GameplayMechanics/Private/Structs/GeneratedTriangles.cpp:26-29 | no centre exists exactly when the vertices are collinear, which is where the source divides by zero |
| GeneratedTriangles.CircumCircleContains | GameplayMechanics/Source/GameplayMechanics/Private/Structs/GeneratedTriangles.cpp:13-40 | no answer exactly for a degenerate triangle; otherwise a yes/no answer |
| GeneratedTriangles.DenominatorsOpposite | GameplayMechanics/Source/GameplayMechanics/Private/Structs/GeneratedTriangles.cpp:26-27 | the Y denominator is the negation of the X denominator; each is zero iff the vertices are collinear |
| GeneratedTriangles.DenominatorsAreOrientation | GameplayMechanics/Source/GameplayMechanics/Private/Structs/GeneratedTriangles.cpp:26-27 | step toward DenominatorsOpposite: the X denominator is minus twice the signed area and the Y denominator is twice the signed area |
| GeneratedTriangles.CircumcentreScaled | GameplayMechanics/Source/GameplayMechanics/Private/Structs/GeneratedTriangles.cpp:26-29 | step toward CircumcentreEquidistant: twice each centre coordinate times the orientation (twice the signed area) is the matching numerator, up to sign |
| GeneratedTriangles.EquidistantScaled | GameplayMechanics/Source/GameplayMechanics/Private/Structs/GeneratedTriangles.cpp:26-33 | step toward CircumcentreEquidistant: a point satisfying the scaled centre equations is as far from Vertex1 as from Vertex2 |
| GeneratedTriangles.EquidistantFromFirstTwo | GameplayMechanics/Source/GameplayMechanics/Private/Structs/GeneratedTriangles.cpp:26-33 | step toward CircumcentreEquidistant: the computed centre is as far from the first vertex as from the second |
| GeneratedTriangles.CircumcentreRotated | GameplayMechanics/Source/GameplayMechanics/Private/Structs/GeneratedTriangles.cpp:26-29 | step toward CircumcentrePermuted: rotating the vertex order does not change the computed centre |
| GeneratedTriangles.CircumcentreSwapped | GameplayMechanics/Source/GameplayMechanics/Private/Structs/GeneratedTriangles.cpp:26-29 | step toward CircumcentrePermuted: swapping the first two vertices does not change the computed centre |
| GeneratedTriangles.CircumcentreEquidistant | GameplayMechanics/Source/GameplayMechanics/Private/Structs/GeneratedTriangles.cpp:26-33 | the computed centre is equidistant from all three vertices |
| GeneratedTriangles.EquidistantPointsCoincide | GameplayMechanics/Source/GameplayMechanics/Private/Structs/GeneratedTriangles.cpp:29-33 | two points each equidistant from three non-collinear points are the same point |
| GeneratedTriangles.CircumcentreUnique | GameplayMechanics/Source/GameplayMechanics/Private/Structs/GeneratedTriangles.cpp:26-33 | every point equidistant from the three vertices is the computed centre |
| GeneratedTriangles.CircumcentreExists | GameplayMechanics/Source/GameplayMechanics/Private/Structs/GeneratedTriangles.cpp:26-33 | a non-degenerate triangle has a point equidistant from its three vertices |
| GeneratedTriangles.ContainsMeansWithinCircumcircle | GameplayMechanics/Source/GameplayMechanics/Private/Structs/GeneratedTriangles.cpp:31-39 | for any centre of a circle through the three vertices, the answer is whether the query is within or on that circle, with the radius taken from any of the three vertices |
| GeneratedTriangles.VerticesContained | GameplayMechanics/Source/GameplayMechanics/Private/Structs/GeneratedTriangles.cpp:26-39 | each of a non-degenerate triangle's own vertices is reported as contained |
| GeneratedTriangles.CircumcentrePermuted | GameplayMechanics/Source/GameplayMechanics/Private/Structs/GeneratedTriangles.cpp:26-29 | the six orders of the same vertices give the same centre |
| GeneratedTriangles.ContainsOrderIndependent | GameplayMechanics/Source/GameplayMechanics/Private/Structs/GeneratedTriangles.cpp:26-39 | the answer is the same for the same vertices in any order and for either bIsBad value; degeneracy is also order-independent |
| MapGeneration.ClassifyBands | GameplayMechanics/Source/GameplayMechanics/Private/SceneActors/MapGenerator.cpp:76-123 | with non-negative probabilities, each outcome of the first-match chain holds iff the draw lies in its band of probability sums, both directions; the reward band is [N+B+E, E+R) and "No Room" is v ≥ N+B+E and v ≥ E+R+S |
| MapGeneration.RewardRoomReachable | GameplayMechanics/Source/GameplayMechanics/Private/SceneActors/MapGenerator.cpp:76-114 | with non-negative probabilities, some draw in [0, MaxProbabilities] yields RewardRoom iff Normal+Boss < Reward |
| MapGeneration.ShopRoomReachable | GameplayMechanics/Source/GameplayMechanics/Private/SceneActors/MapGenerator.cpp:76-119 | with non-negative probabilities, some draw in [0, MaxProbabilities] yields ShopRoom iff Shop > 0 and Normal+Boss < Reward+Shop |
| MapGeneration.DefaultsNeverRewardOrShop | GameplayMechanics/Source/GameplayMechanics/Private/SceneActors/MapGenerator.cpp:22-27 | with the constructor's probabilities, no drawn value at all yields RewardRoom or ShopRoom |
| MapGeneration.RoomNodeEffect | GameplayMechanics/Source/GameplayMechanics/Private/SceneActors/MapGenerator.cpp:87-123 | the room pass never changes a node's actor. Without a mesh, without a material, or on "No Room", the node is unchanged; otherwise its kind is the classified one |
| MapGeneration.NodeLocationClosedForm | GameplayMechanics/Source/GameplayMechanics/Private/SceneActors/MapGenerator.cpp:56-60 | for Index ≥ 0 and MapLayers ≠ 0, the location is ((Index % L)·dN, 2·(Index / L)·dL, 0) |
| MapGeneration.ColumnInRange | GameplayMechanics/Source/GameplayMechanics/Private/SceneActors/MapGenerator.cpp:49-56 | with MapLayers > 0, every Index below MaxNodes has Column in [0, MapDensity) |
| MapGeneration.MapGenerator.constructor | GameplayMechanics/Source/GameplayMechanics/Private/SceneActors/MapGenerator.cpp:9-28 | MapLayers 15, MapDensity 7, MaxMapConections 4, DistanceBetweenNodes 50, DistanceBetweenLayers 100; probabilities 0.2, 0.05, 0.1, 0.1, 0.1, 0.3; BaseNode has no actor; MapArray is empty |
| MapGeneration.MapGenerator.GenerateBaseMap | GameplayMechanics/Source/GameplayMechanics/Private/SceneActors/MapGenerator.cpp:47-67 | MapArray becomes a new array of exactly MapLayers·MapDensity entries. Each entry is BaseNode with the actor spawned at its grid location, or no actor where the spawn failed. No other field changes |
| MapGeneration.MapGenerator.GenerateRandomRooms | GameplayMechanics/Source/GameplayMechanics/Private/SceneActors/MapGenerator.cpp:69-130 | each of the first MaxNodes entries is updated by the room pass on its own draw, mesh and material. Entries past MaxNodes, the array itself and every field are unchanged |
| MapGeneration.MapGenerator.BeginPlay | GameplayMechanics/Source/GameplayMechanics/Private/SceneActors/MapGenerator.cpp:31-37 | with every spawn succeeding, the map has MaxNodes entries. Each is the room pass applied to BaseNode with its grid-located actor |

## Left out

- Floating point. Coordinates, probability sums and draws are exact reals, and grid locations are exact integers. The rounding of `float` is not modelled. That includes `0.2f` against `0.1` and the threshold comparisons near a boundary.
- A zero denominator in `CircumCircleContains` (collinear vertices). With IEEE floats the code's answer then depends on the numerators. When both are non-zero, the centre is infinite, both distances are infinite, and the comparison is true for every query point; for example (0,0), (1,1), (2,2). When one numerator is zero, 0/0 gives a NaN centre and the comparison is false; for example (0,0), (0,1), (0,2). The model returns `None` in place of either outcome.
- GeneratedTriangles.CircumCircleContains: the stated property is "within or on the circumcircle" over exact reals. With floats, a point near the circle may be classified either way.
- The default `FGeneratedTriangle()` constructor. It leaves the vertices uninitialised, so it has no defined result to model.
- `FMath::RandRange`. The drawn value is a parameter per index, and only the reachability lemmas assume it lies in `[0, MaxProbabilities]`.
- Actor spawning, `GetComponentByClass`, `UMaterialInstanceDynamic::Create`, `SetVectorParameterValue` and `SetMaterial`. These are engine calls. They are reduced to a success flag per index and an actor handle that records the spawn location. The per-room colours are therefore not modelled.
- MapGeneration.MapGenerator.GenerateRandomRooms: requires an actor on each of the first MaxNodes entries and MaxNodes ≤ the array length. The code dereferences `NodeActor` and indexes `MapArray` without a check there.
- MapGeneration.MapGenerator.GenerateBaseMap: requires MapLayers·MapDensity ≥ 0. `TArray::Init` is engine code that is not part of this model, and a negative element count is outside its contract. BeginPlay inherits this requires. GenerateRandomRooms has no such requires: for a negative count its loop runs zero times, as the code's does.
- MapGeneration.MapGenerator.BeginPlay: covers only the run in which every `SpawnActor` succeeds. After a failed spawn, the room pass would dereference a null actor.
- 32-bit int overflow of `MapLayers * MapDensity` and of the location products. Integers are unbounded in the model.
- MapGeneration.MapGenerator.constructor: the room kind of `BaseNode` is a constructor parameter. `FMapNode()` sets only `NodeActor = nullptr`. The C++ declarations of `NodeType` and `FMapNode` are not in `MapGenerator.h`, so their default room kind is unknown. The model declares its own `NodeType` and `MapNode`, with the kinds and fields the generator uses.
- `Tick`, `PrimaryActorTick` and the unused `MaxMapConections` setting: no behaviour beyond the stored value.
- Poisson-disk sampling (`PoisonDiskSamplingAlgorithm`, `MyPoisonDiskSamplingAlgorithm`), candidate validation (`IsCandidateValid`, `IsMyCandidateValid`) and the three `DrawDebug…` methods. They are declared in `MapGenerator.h`, and their bodies are not part of this model.
- Triangulation, a graph builder and a router. No code for them is part of this model. Only the triangle, node and edge records they would use are present, and of those only `FGeneratedTriangle` is modelled.
- The character, dialog, interactable and interface classes, and the node and edge records. They are engine-hosted gameplay code or bare declarations.
