/** The editing commands of the designer's main component (App.tsx): the
    undo history, the selection, and the handlers that compute a new block
    list from the current one. */
module Editor {
  import opened Types
  import opened JsMath
  import opened QuarterTurn
  import opened InstructionSteps

  datatype Mode = Build | Edit | Measure

  /** The ids occurring in a list of blocks. */
  function IdsIn(blocks: seq<PlacedBrock>): (s: set<Id>)
    ensures forall b :: b in blocks ==> b.id in s
    ensures forall id :: id in s ==> exists b :: b in blocks && b.id == id
  {
    set b | b in blocks :: b.id
  }

  // ---- selection ----

  /** `Set.delete` on an insertion-ordered set: the id leaves its place and
      the others keep their order, so the first remaining id is the next
      leader. */
  function Remove(s: seq<Id>, id: Id): (r: seq<Id>)
    ensures forall x :: x in r <==> x in s && x != id
    ensures NoDuplicates(s) ==> NoDuplicates(r)
    ensures id !in s ==> r == s
    ensures NoDuplicates(s) && id in s ==> r == s[..IndexOf(s, id)] + s[IndexOf(s, id) + 1..]
  {
    if s == [] then []
    else
      var rest := Remove(s[1..], id);
      NoDuplicatesCons(s);
      if s[0] == id then rest
      else
        NoDuplicatesCons([s[0]] + rest);
        assert ([s[0]] + rest)[1..] == rest;
        if id in s[1..] then
          SpliceCons(s, IndexOf(s[1..], id));
          [s[0]] + rest
        else [s[0]] + rest
  }

  /** Cutting position k + 1 out of a sequence keeps its head in front of
      the tail with position k cut out. */
  lemma SpliceCons<T>(s: seq<T>, k: nat)
    requires k + 1 < |s|
    ensures [s[0]] + (s[1..][..k] + s[1..][k + 1..]) == s[..k + 1] + s[k + 2..]
  {
    assert s[..k + 1] == [s[0]] + s[1..][..k];
    assert s[k + 2..] == s[1..][k + 1..];
  }

  /** A multi-click: takes a selected id out of the selection, or adds an
      unselected one at the end. */
  function Toggle(s: seq<Id>, id: Id): (r: seq<Id>)
    ensures id in r <==> id !in s
    ensures forall x :: x != id ==> (x in r <==> x in s)
    ensures NoDuplicates(s) ==> NoDuplicates(r)
    ensures id !in s ==> r == s + [id]
    ensures NoDuplicates(s) && id in s ==> r == s[..IndexOf(s, id)] + s[IndexOf(s, id) + 1..]
  {
    if id in s then Remove(s, id) else s + [id]
  }

  /** Toggling twice gives back the same set of ids (an id taken out and put
      back moves to the end). */
  lemma ToggleTwice(s: seq<Id>, id: Id)
    ensures forall x :: x in Toggle(Toggle(s, id), id) <==> x in s
  {
  }

  /** `blocks.filter(b => selectedBlockIds.has(b.id))`. */
  function SelectedBlocks(blocks: seq<PlacedBrock>, selection: seq<Id>): (r: seq<PlacedBrock>)
    ensures forall b :: b in r <==> b in blocks && b.id in selection
  {
    if blocks == [] then []
    else (if blocks[0].id in selection then [blocks[0]] else []) + SelectedBlocks(blocks[1..], selection)
  }

  /** `blocks.filter(b => !selectedBlockIds.has(b.id))`. */
  function UnselectedBlocks(blocks: seq<PlacedBrock>, selection: seq<Id>): (r: seq<PlacedBrock>)
    ensures forall b :: b in r <==> b in blocks && b.id !in selection
  {
    if blocks == [] then []
    else (if blocks[0].id !in selection then [blocks[0]] else []) + UnselectedBlocks(blocks[1..], selection)
  }

  /** The copied blocks keep scene order: filtering a concatenation filters
      each part in turn. */
  lemma {:induction false} SelectedBlocksOrder(a: seq<PlacedBrock>, b: seq<PlacedBrock>, selection: seq<Id>)
    ensures SelectedBlocks(a + b, selection) == SelectedBlocks(a, selection) + SelectedBlocks(b, selection)
  {
    if a != [] {
      SelectedBlocksOrder(a[1..], b, selection);
      assert (a + b)[1..] == a[1..] + b;
    } else {
      assert a + b == b;
    }
  }

  /** The blocks a delete keeps stay in scene order, likewise. */
  lemma {:induction false} UnselectedBlocksOrder(a: seq<PlacedBrock>, b: seq<PlacedBrock>, selection: seq<Id>)
    ensures UnselectedBlocks(a + b, selection) == UnselectedBlocks(a, selection) + UnselectedBlocks(b, selection)
  {
    if a != [] {
      var x, rest := a[0], a[1..];
      assert a == [x] + rest;
      assert a + b == [x] + (rest + b);
      UnselectedBlocksOrder(rest, b, selection);
      UnselectedCons(x, rest + b, selection);
      UnselectedCons(x, rest, selection);
    } else {
      assert a + b == b;
    }
  }

  /** One step of the filter: the first block is kept exactly when it is
      unselected. */
  lemma UnselectedCons(x: PlacedBrock, rest: seq<PlacedBrock>, selection: seq<Id>)
    ensures UnselectedBlocks([x] + rest, selection)
      == (if x.id !in selection then [x] else []) + UnselectedBlocks(rest, selection)
  {
    assert ([x] + rest)[1..] == rest;
  }

  /** Deleting the selection splits the scene: what is kept and what was
      selected are together exactly the blocks that were there. */
  lemma {:induction false} DeletePartition(blocks: seq<PlacedBrock>, selection: seq<Id>)
    ensures multiset(UnselectedBlocks(blocks, selection)) + multiset(SelectedBlocks(blocks, selection)) == multiset(blocks)
  {
    if blocks != [] {
      DeletePartition(blocks[1..], selection);
      assert blocks == [blocks[0]] + blocks[1..];
    }
  }

  /** With nothing selected, a delete would keep every block. */
  lemma {:induction false} UnselectedNothing(blocks: seq<PlacedBrock>)
    ensures UnselectedBlocks(blocks, []) == blocks
  {
    if blocks != [] {
      UnselectedNothing(blocks[1..]);
      assert blocks == [blocks[0]] + blocks[1..];
    }
  }

  // ---- the new block lists ----

  /** `handleMoveBlock`'s map: every selected block moves by the leader's
      displacement; the leader takes the ghost's rotation. */
  function MoveGroup(blocks: seq<PlacedBrock>, selection: seq<Id>, leader: PlacedBrock,
                     leaderPos: Vec3, leaderRot: Rot3): (r: seq<PlacedBrock>)
    ensures |r| == |blocks|
  {
    var delta := Sub(leaderPos, leader.position);
    seq(|blocks|, i requires 0 <= i < |blocks| =>
      var b := blocks[i];
      if b.id in selection then
        b.(position := Add(b.position, delta), rotation := if b.id == leader.id then leaderRot else b.rotation)
      else b)
  }

  /** A move is rigid: the leader lands on the target position with the
      target rotation, every other selected block keeps its offset from
      the leader and its rotation, unselected blocks stay, and no block
      changes id, type or timestamp. */
  lemma MoveGroupRigid(blocks: seq<PlacedBrock>, selection: seq<Id>, leader: PlacedBrock,
                       leaderPos: Vec3, leaderRot: Rot3, i: nat)
    requires i < |blocks|
    ensures var r := MoveGroup(blocks, selection, leader, leaderPos, leaderRot);
      && r[i].id == blocks[i].id && r[i].kind == blocks[i].kind && r[i].timestamp == blocks[i].timestamp
      && (blocks[i].id !in selection ==> r[i] == blocks[i])
      && (blocks[i].id in selection ==> Sub(r[i].position, leaderPos) == Sub(blocks[i].position, leader.position))
      && (blocks[i] == leader && leader.id in selection ==> r[i].position == leaderPos && r[i].rotation == leaderRot)
      && (blocks[i].id in selection && blocks[i].id != leader.id ==> r[i].rotation == blocks[i].rotation)
  {
  }

  /** `handleSetAbsoluteTransform`'s map: the leader is put exactly at the
      given position and rotation; the rest of the selection moves by the
      same displacement and takes the same rotation. */
  function SetAbsolute(blocks: seq<PlacedBrock>, selection: seq<Id>, leader: PlacedBrock,
                       absPos: Vec3, absRot: Rot3): (r: seq<PlacedBrock>)
    ensures |r| == |blocks|
  {
    var delta := Sub(absPos, leader.position);
    seq(|blocks|, i requires 0 <= i < |blocks| =>
      var b := blocks[i];
      if b.id !in selection then b
      else if b.id == leader.id then b.(position := absPos, rotation := absRot)
      else b.(position := Add(b.position, delta), rotation := absRot))
  }

  /** After an absolute transform every selected block has the given
      rotation and keeps its offset from the leader. */
  lemma SetAbsoluteRigid(blocks: seq<PlacedBrock>, selection: seq<Id>, leader: PlacedBrock,
                         absPos: Vec3, absRot: Rot3, i: nat)
    requires i < |blocks|
    ensures var r := SetAbsolute(blocks, selection, leader, absPos, absRot);
      && r[i].id == blocks[i].id && r[i].kind == blocks[i].kind
      && (blocks[i].id !in selection ==> r[i] == blocks[i])
      && (blocks[i].id in selection ==> r[i].rotation == absRot)
      && (blocks[i] == leader && leader.id in selection ==> r[i].position == absPos)
      && (blocks[i].id in selection && blocks[i].id != leader.id ==>
            Sub(r[i].position, absPos) == Sub(blocks[i].position, leader.position))
  {
  }

  /** `Math.sign` of a non-zero step count. */
  function StepSign(d: int): (s: int)
    requires d != 0
    ensures s == 1 || s == -1
    ensures (s == 1) <==> d > 0
  {
    if d > 0 then 1 else -1
  }

  /** The three offset turns of `handleUpdateSelected`, each a quarter turn
      in the direction of the step, whatever its size. */
  function TurnX(v: Vec3, d: int): Vec3
  {
    if d == 0 then v else var s := StepSign(d) as real; Vec3(v.x, -v.z * s, v.y * s)
  }

  function TurnY(v: Vec3, d: int): Vec3
  {
    if d == 0 then v else var s := StepSign(d) as real; Vec3(v.z * s, v.y, -v.x * s)
  }

  function TurnZ(v: Vec3, d: int): Vec3
  {
    if d == 0 then v else var s := StepSign(d) as real; Vec3(-v.y * s, v.x * s, v.z)
  }

  /** The offset of a selected block after a rotation step: turned about x,
      then y, then z. */
  function TurnOffset(v: Vec3, d: Rot3): Vec3
  {
    TurnZ(TurnY(TurnX(v, d.x), d.y), d.z)
  }

  /** Each offset turn is the quarter-turn rotation about its axis, by one
      step in the direction of the delta. */
  lemma TurnsAreRotations(v: Vec3, d: int)
    requires d != 0
    ensures TurnX(v, d) == RotX(v, StepSign(d))
    ensures TurnY(v, d) == RotY(v, StepSign(d))
    ensures TurnZ(v, d) == RotZ(v, StepSign(d))
  {
  }

  /** Turning never changes an offset's length. */
  lemma TurnOffsetKeepsLength(v: Vec3, d: Rot3)
    ensures Dot(TurnOffset(v, d), TurnOffset(v, d)) == Dot(v, v)
  {
    var a := TurnX(v, d.x);
    var b := TurnY(a, d.y);
    TurnXKeepsLength(v, d.x);
    TurnYKeepsLength(a, d.y);
    TurnZKeepsLength(b, d.z);
  }

  lemma TurnXKeepsLength(v: Vec3, d: int)
    ensures Dot(TurnX(v, d), TurnX(v, d)) == Dot(v, v)
  {
    if d != 0 {
      var s := StepSign(d) as real;
      assert s * s == 1.0;
      assert Dot(TurnX(v, d), TurnX(v, d)) == v.x * v.x + (v.z * v.z) * (s * s) + (v.y * v.y) * (s * s);
    }
  }

  lemma TurnYKeepsLength(v: Vec3, d: int)
    ensures Dot(TurnY(v, d), TurnY(v, d)) == Dot(v, v)
  {
    if d != 0 {
      var s := StepSign(d) as real;
      assert s * s == 1.0;
      assert Dot(TurnY(v, d), TurnY(v, d)) == (v.z * v.z) * (s * s) + v.y * v.y + (v.x * v.x) * (s * s);
    }
  }

  lemma TurnZKeepsLength(v: Vec3, d: int)
    ensures Dot(TurnZ(v, d), TurnZ(v, d)) == Dot(v, v)
  {
    if d != 0 {
      var s := StepSign(d) as real;
      assert s * s == 1.0;
      assert Dot(TurnZ(v, d), TurnZ(v, d)) == (v.y * v.y) * (s * s) + (v.x * v.x) * (s * s) + v.z * v.z;
    }
  }

  /** A turn about one axis followed by the opposite turn gives the offset
      back: ArrowRight then ArrowLeft restores the group. */
  lemma TurnOffsetUndo(v: Vec3, d: Rot3)
    requires (d.x != 0 && d.y == 0 && d.z == 0) || (d.x == 0 && d.y != 0 && d.z == 0)
             || (d.x == 0 && d.y == 0 && d.z != 0)
    ensures TurnOffset(TurnOffset(v, d), Rot3(-d.x, -d.y, -d.z)) == v
  {
  }

  /** Four turns the same way give the offset back. */
  lemma TurnOffsetFourTimes(v: Vec3, d: Rot3)
    requires (d.x != 0 && d.y == 0 && d.z == 0) || (d.x == 0 && d.y != 0 && d.z == 0)
             || (d.x == 0 && d.y == 0 && d.z != 0)
    ensures TurnOffset(TurnOffset(TurnOffset(TurnOffset(v, d), d), d), d) == v
  {
  }

  /** `handleUpdateSelected`'s map: each selected block's offset from the
      leader is turned, the group is moved by the position delta and every
      selected rotation gains the step delta. */
  function UpdateSelected(blocks: seq<PlacedBrock>, selection: seq<Id>, leader: PlacedBrock,
                          posDelta: Vec3, rotDelta: Rot3): (r: seq<PlacedBrock>)
    ensures |r| == |blocks|
  {
    seq(|blocks|, i requires 0 <= i < |blocks| =>
      var b := blocks[i];
      if b.id !in selection then b
      else
        var offset := TurnOffset(Sub(b.position, leader.position), rotDelta);
        b.(position := Add(Add(leader.position, offset), posDelta), rotation := AddRot(b.rotation, rotDelta)))
  }

  /** The leader moves by the position delta; every selected block stays
      at the same distance from it and gains the rotation delta;
      unselected blocks are unchanged. */
  lemma UpdateSelectedRigid(blocks: seq<PlacedBrock>, selection: seq<Id>, leader: PlacedBrock,
                            posDelta: Vec3, rotDelta: Rot3, i: nat)
    requires i < |blocks|
    ensures var r := UpdateSelected(blocks, selection, leader, posDelta, rotDelta);
      var newLeader := Add(leader.position, posDelta);
      && r[i].id == blocks[i].id && r[i].kind == blocks[i].kind
      && (blocks[i].id !in selection ==> r[i] == blocks[i])
      && (blocks[i].id in selection ==> r[i].rotation == AddRot(blocks[i].rotation, rotDelta))
      && (blocks[i].id in selection ==>
            var o := Sub(r[i].position, newLeader);
            var p := Sub(blocks[i].position, leader.position);
            Dot(o, o) == Dot(p, p))
      && (blocks[i] == leader && leader.id in selection ==> r[i].position == newLeader)
  {
    var r := UpdateSelected(blocks, selection, leader, posDelta, rotDelta);
    var b := blocks[i];
    if b.id in selection {
      var p := Sub(b.position, leader.position);
      TurnOffsetKeepsLength(p, rotDelta);
      assert Sub(r[i].position, Add(leader.position, posDelta)) == TurnOffset(p, rotDelta);
    }
  }

  /** Two quarter turns about x compose by adding their steps. */
  lemma RotXCompose(w: Vec3, a: int, d: int)
    ensures RotX(RotX(w, a), d) == RotX(w, a + d)
  {
    OddIsRemainder(a);
    OddIsRemainder(d);
    OddIsRemainder(a + d);
    assert (a + d) % 4 == (a % 4 + d % 4) % 4;
  }

  /** A step about x moves every point of a selected block with the group:
      the block's new orientation is its old one followed by the turn of
      its offset. */
  lemma UpdateSelectedTurnsBlockX(b: PlacedBrock, d: int, h: Vec3)
    requires d == 1 || d == -1
    ensures Rotate(h, AddRot(b.rotation, Rot3(d, 0, 0))) == TurnX(Rotate(h, b.rotation), d)
  {
    var r := b.rotation;
    var w := RotY(RotZ(h, r.z), r.y);
    RotXCompose(w, r.x, d);
    TurnsAreRotations(Rotate(h, r), d);
  }

  /** A step about y on a block tilted about x turns the block about its own
      tilted axis, not about the world's: the block does not follow its
      offset. */
  lemma TiltedTurnY()
    ensures var h := Vec3(1.0, 0.0, 0.0);
      Rotate(h, AddRot(Rot3(1, 0, 0), Rot3(0, 1, 0))) != TurnY(Rotate(h, Rot3(1, 0, 0)), 1)
  {
    var h := Vec3(1.0, 0.0, 0.0);
    assert Rotate(h, Rot3(1, 1, 0)) == Vec3(0.0, 1.0, 0.0);
    assert TurnY(Rotate(h, Rot3(1, 0, 0)), 1) == Vec3(0.0, 0.0, -1.0);
  }

  /** The pasted copies: the clipboard's blocks with fresh ids and the
      paste time. */
  function Copies(clipboard: seq<PlacedBrock>, newIds: seq<Id>, now: int): (r: seq<PlacedBrock>)
    requires |newIds| == |clipboard|
    ensures |r| == |clipboard|
    ensures Ids(r) == newIds
  {
    seq(|clipboard|, i requires 0 <= i < |clipboard| => clipboard[i].(id := newIds[i], timestamp := now))
  }

  /** Pasting keeps the scene's ids distinct when the fresh ids are distinct
      and unused. */
  lemma PasteKeepsIdsDistinct(blocks: seq<PlacedBrock>, clipboard: seq<PlacedBrock>, newIds: seq<Id>, now: int)
    requires |newIds| == |clipboard|
    requires NoDuplicates(Ids(blocks)) && NoDuplicates(newIds)
    requires forall id :: id in newIds ==> id !in Ids(blocks)
    ensures NoDuplicates(Ids(blocks + Copies(clipboard, newIds, now)))
  {
    var copies := Copies(clipboard, newIds, now);
    var r := blocks + copies;
    var ids := Ids(r);
    forall i, j | 0 <= i < j < |ids| ensures ids[i] != ids[j] {
      assert ids[i] == r[i].id && ids[j] == r[j].id;
      if i >= |blocks| {
        assert r[i] == copies[i - |blocks|] && r[j] == copies[j - |blocks|];
        assert Ids(copies)[i - |blocks|] == copies[i - |blocks|].id;
        assert Ids(copies)[j - |blocks|] == copies[j - |blocks|].id;
      } else if j >= |blocks| {
        assert r[i] == blocks[i] && r[j] == copies[j - |blocks|];
        assert Ids(copies)[j - |blocks|] == copies[j - |blocks|].id;
        assert r[j].id in newIds;
        assert Ids(blocks)[i] == blocks[i].id;
      } else {
        assert r[i] == blocks[i] && r[j] == blocks[j];
        assert Ids(blocks)[i] == blocks[i].id && Ids(blocks)[j] == blocks[j].id;
      }
    }
  }

  // ---- instruction view ----

  /** The ids of every block of the given steps. */
  function UnionIds(steps: seq<seq<PlacedBrock>>): set<Id>
  {
    if steps == [] then {} else UnionIds(steps[..|steps| - 1]) + IdsIn(steps[|steps| - 1])
  }

  /** `visibleBlockIds`: with instruction mode on, the blocks of steps 0 to
      `currentStep`; a step past the end adds nothing. */
  method VisibleBlockIds(instructionMode: bool, currentStep: nat, steps: seq<seq<PlacedBrock>>) returns (ids: set<Id>)
    ensures !instructionMode ==> ids == {}
    ensures instructionMode ==> ids == UnionIds(steps[..if currentStep < |steps| then currentStep + 1 else |steps|])
  {
    if !instructionMode {
      return {};
    }
    ids := {};
    var i := 0;
    while i <= currentStep
      invariant 0 <= i <= currentStep + 1
      invariant ids == UnionIds(steps[..if i < |steps| then i else |steps|])
    {
      if i < |steps| {
        assert steps[..i + 1][..i] == steps[..i];
        ids := ids + IdsIn(steps[i]);
      }
      i := i + 1;
    }
  }

  /** The ids of a list of steps are the ids of their concatenation. */
  lemma {:induction false} UnionIdsFlatten(steps: seq<seq<PlacedBrock>>)
    ensures UnionIds(steps) == IdsIn(Flatten(steps))
  {
    if steps != [] {
      var init := steps[..|steps| - 1];
      UnionIdsFlatten(init);
      FlattenSnoc(init, steps[|steps| - 1]);
      assert steps == init + [steps[|steps| - 1]];
    }
  }

  lemma {:induction false} FlattenSnoc(ss: seq<seq<PlacedBrock>>, s: seq<PlacedBrock>)
    ensures Flatten(ss + [s]) == Flatten(ss) + s
  {
    if ss != [] {
      assert (ss + [s])[1..] == ss[1..] + [s];
      FlattenSnoc(ss[1..], s);
    }
  }

  /** At the last step every block of the scene is visible. */
  lemma AllVisibleAtLastStep(blocks: seq<PlacedBrock>)
    ensures UnionIds(Steps(blocks)) == IdsIn(blocks)
  {
    var steps := Steps(blocks);
    UnionIdsFlatten(steps);
    StepsPermutation(blocks);
    assert forall b :: b in Flatten(steps) <==> b in multiset(blocks);
  }

  // ---- the editor state ----

  /** The state of `App` the handlers read and write. */
  class EditorState {
    var history: seq<seq<PlacedBrock>>
    var historyIndex: nat
    var mode: Mode
    var selectedType: BrockType
    /** `selectedBlockIds`, a set that remembers insertion order. */
    var selection: seq<Id>
    var isMoving: bool
    var clipboard: seq<PlacedBrock>

    ghost predicate Valid()
      reads this
    {
      historyIndex < |history| && NoDuplicates(selection)
    }

    /** `history[historyIndex] || []`. */
    function Blocks(): (b: seq<PlacedBrock>)
      reads this
      ensures historyIndex < |history| ==> b == history[historyIndex]
    {
      if historyIndex < |history| then history[historyIndex] else []
    }

    constructor ()
      ensures Valid()
      ensures history == [[]] && historyIndex == 0 && Blocks() == []
      ensures mode == Build && selectedType == Base && selection == [] && !isMoving && clipboard == []
    {
      history, historyIndex := [[]], 0;
      mode, selectedType := Build, Base;
      selection, isMoving, clipboard := [], false, [];
    }

    /** `pushState`: drops the redo tail and makes the new list current. */
    method PushState(newBlocks: seq<PlacedBrock>)
      requires Valid()
      modifies this`history, this`historyIndex
      ensures Valid()
      ensures history == old(history[..historyIndex + 1]) + [newBlocks]
      ensures historyIndex == old(historyIndex) + 1
      ensures Blocks() == newBlocks
      ensures history[historyIndex - 1] == old(Blocks())
    {
      history := history[..historyIndex + 1] + [newBlocks];
      historyIndex := historyIndex + 1;
    }

    method Undo()
      requires Valid()
      modifies this`historyIndex, this`selection, this`isMoving
      ensures Valid()
      ensures history == old(history)
      ensures old(historyIndex) > 0 ==> historyIndex == old(historyIndex) - 1 && selection == [] && !isMoving
      ensures old(historyIndex) == 0 ==> historyIndex == 0 && selection == old(selection) && isMoving == old(isMoving)
    {
      if historyIndex > 0 {
        historyIndex := historyIndex - 1;
        selection, isMoving := [], false;
      }
    }

    method Redo()
      requires Valid()
      modifies this`historyIndex, this`selection, this`isMoving
      ensures Valid()
      ensures history == old(history)
      ensures old(historyIndex) < |history| - 1 ==> historyIndex == old(historyIndex) + 1 && selection == [] && !isMoving
      ensures old(historyIndex) == |history| - 1 ==> historyIndex == old(historyIndex) && selection == old(selection) && isMoving == old(isMoving)
    {
      if historyIndex < |history| - 1 {
        historyIndex := historyIndex + 1;
        selection, isMoving := [], false;
      }
    }

    /** `handlePlaceBlock`, with the random id and the clock as parameters. */
    method PlaceBlock(position: Vec3, rot: Rot3, newId: Id, now: int)
      requires Valid()
      modifies this`history, this`historyIndex, this`selection
      ensures Valid()
      ensures old(mode) != Build ==> history == old(history) && historyIndex == old(historyIndex) && selection == old(selection)
      ensures old(mode) == Build ==>
        && Blocks() == old(Blocks()) + [PlacedBrock(newId, selectedType, position, rot, now)]
        && history == old(history[..historyIndex + 1]) + [Blocks()]
        && historyIndex == old(historyIndex) + 1 && selection == []
    {
      if mode != Build {
        return;
      }
      var newBlock := PlacedBrock(newId, selectedType, position, rot, now);
      PushState(Blocks() + [newBlock]);
      selection := [];
    }

    /** `handleSelectBlock`. */
    method SelectBlock(id: Id, isMulti: bool)
      requires Valid()
      modifies this`selection, this`isMoving
      ensures Valid()
      ensures mode == Edit && isMulti ==> selection == Toggle(old(selection), id) && !isMoving
      ensures mode == Edit && !isMulti && id in old(selection) ==> selection == old(selection) && isMoving
      ensures mode == Edit && !isMulti && id !in old(selection) ==> selection == [id] && !isMoving
      ensures mode != Edit ==> selection == [id] && isMoving == old(isMoving)
    {
      if mode == Edit {
        if isMulti {
          selection := Toggle(selection, id);
          isMoving := false;
        } else if id in selection {
          isMoving := true;
        } else {
          selection := [id];
          isMoving := false;
        }
      } else {
        selection := [id];
      }
    }

    /** `handleMoveBlock`: ends a move by dropping the group where the leader's
        ghost is. */
    method MoveBlock(leaderPos: Vec3, leaderRot: Rot3)
      requires Valid()
      modifies this`history, this`historyIndex, this`isMoving
      ensures Valid()
      ensures var acts := old(isMoving) && old(selection) != [] && Find(old(Blocks()), old(selection)[0]).Some?;
        && (!acts ==> history == old(history) && historyIndex == old(historyIndex) && isMoving == old(isMoving))
        && (acts ==>
              && Blocks() == MoveGroup(old(Blocks()), selection, Find(old(Blocks()), selection[0]).value, leaderPos, leaderRot)
              && history == old(history[..historyIndex + 1]) + [Blocks()]
              && historyIndex == old(historyIndex) + 1 && !isMoving)
    {
      if !isMoving || selection == [] {
        return;
      }
      var leader := Find(Blocks(), selection[0]);
      if leader.None? {
        return;
      }
      PushState(MoveGroup(Blocks(), selection, leader.value, leaderPos, leaderRot));
      isMoving := false;
    }

    /** `handleSetAbsoluteTransform`, from the transform inspector. */
    method SetAbsoluteTransform(absPos: Vec3, absRot: Rot3)
      requires Valid()
      modifies this`history, this`historyIndex
      ensures Valid()
      ensures var acts := selection != [] && Find(old(Blocks()), selection[0]).Some?;
        && (!acts ==> history == old(history) && historyIndex == old(historyIndex))
        && (acts ==>
              && Blocks() == SetAbsolute(old(Blocks()), selection, Find(old(Blocks()), selection[0]).value, absPos, absRot)
              && history == old(history[..historyIndex + 1]) + [Blocks()]
              && historyIndex == old(historyIndex) + 1)
    {
      if selection == [] {
        return;
      }
      var leader := Find(Blocks(), selection[0]);
      if leader.None? {
        return;
      }
      PushState(SetAbsolute(Blocks(), selection, leader.value, absPos, absRot));
    }

    /** `handleDeleteSelected`. */
    method DeleteSelected()
      requires Valid()
      modifies this`history, this`historyIndex, this`selection, this`isMoving
      ensures Valid()
      ensures old(selection) == [] ==> history == old(history) && historyIndex == old(historyIndex) && selection == [] && isMoving == old(isMoving)
      ensures old(selection) != [] ==>
        && Blocks() == UnselectedBlocks(old(Blocks()), old(selection))
        && history == old(history[..historyIndex + 1]) + [Blocks()]
        && historyIndex == old(historyIndex) + 1 && selection == [] && !isMoving
    {
      if selection != [] {
        PushState(UnselectedBlocks(Blocks(), selection));
        selection, isMoving := [], false;
      }
    }

    /** `handleCopy`: a deep copy of the selected blocks. */
    method Copy()
      requires Valid()
      modifies this`clipboard
      ensures selection == [] ==> clipboard == old(clipboard)
      ensures selection != [] ==> clipboard == SelectedBlocks(Blocks(), selection)
    {
      if selection != [] {
        clipboard := SelectedBlocks(Blocks(), selection);
      }
    }

    /** `handlePaste`, with the fresh random ids and the clock as
        parameters: the copies go after every block of the scene, become
        the selection and start moving. */
    method Paste(newIds: seq<Id>, now: int)
      requires Valid()
      requires |newIds| == |clipboard| && NoDuplicates(newIds)
      modifies this`history, this`historyIndex, this`selection, this`mode, this`isMoving
      ensures Valid()
      ensures clipboard == [] ==>
        && history == old(history) && historyIndex == old(historyIndex)
        && selection == old(selection) && mode == old(mode) && isMoving == old(isMoving)
      ensures clipboard != [] ==>
        && Blocks() == old(Blocks()) + Copies(clipboard, newIds, now)
        && history == old(history[..historyIndex + 1]) + [Blocks()]
        && historyIndex == old(historyIndex) + 1
        && selection == newIds && mode == Edit && isMoving
    {
      if clipboard == [] {
        return;
      }
      PushState(Blocks() + Copies(clipboard, newIds, now));
      selection, mode, isMoving := newIds, Edit, true;
    }

    /** `handleUpdateSelected`: the keyboard's nudges and quarter turns of
        the selection about its leader. */
    method UpdateSelectedBlocks(posDelta: Vec3, rotDelta: Rot3)
      requires Valid()
      modifies this`history, this`historyIndex
      ensures Valid()
      ensures var acts := selection != [] && Find(old(Blocks()), selection[0]).Some?;
        && (!acts ==> history == old(history) && historyIndex == old(historyIndex))
        && (acts ==>
              && Blocks() == UpdateSelected(old(Blocks()), selection, Find(old(Blocks()), selection[0]).value, posDelta, rotDelta)
              && history == old(history[..historyIndex + 1]) + [Blocks()]
              && historyIndex == old(historyIndex) + 1)
    {
      if selection == [] {
        return;
      }
      var leader := Find(Blocks(), selection[0]);
      if leader.None? {
        return;
      }
      PushState(UpdateSelected(Blocks(), selection, leader.value, posDelta, rotDelta));
    }

    /** `executeClear`: an empty scene with a fresh history. */
    method Clear()
      requires Valid()
      modifies this`history, this`historyIndex, this`selection, this`isMoving
      ensures Valid()
      ensures history == [[]] && historyIndex == 0 && Blocks() == [] && selection == [] && !isMoving
    {
      history, historyIndex := [[]], 0;
      selection, isMoving := [], false;
    }
  }
}
