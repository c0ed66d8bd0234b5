/** The slice of the entity-component system that the tracker systems rely on:
    entity identifiers, query filtering in iteration order, the single-match
    lookup `get_single`, and the `Transform` component. */
module Ecs {

  /** An entity identifier; only compared, never computed with. */
  type EntityId = nat

  datatype Result<T, E> = Ok(value: T) | Err(error: E)

  /** The two ways a single-match lookup fails. */
  datatype QuerySingleError = NoEntities | MultipleEntities

  /** A 3D vector and a quaternion. The systems modelled here only copy these
      values from the pose source into a transform, so their components are
      carried but never computed with. */
  datatype Vec3 = Vec3(x: real, y: real, z: real)
  datatype Quat = Quat(x: real, y: real, z: real, w: real)

  /** An entity's local transform component. */
  datatype Transform = Transform(translation: Vec3, rotation: Quat, scale: Vec3)

  /** No entity occurs twice in an iteration order. */
  ghost predicate Distinct(s: seq<EntityId>)
  {
    forall i, j :: 0 <= i < j < |s| ==> s[i] != s[j]
  }

  /** The entities of `s` that match filter `p`, in iteration order: what
      iterating a query yields. */
  function Select(s: seq<EntityId>, p: EntityId -> bool): (r: seq<EntityId>)
    ensures forall e :: e in r <==> e in s && p(e)
    ensures |r| <= |s|
    ensures Distinct(s) ==> Distinct(r)
  {
    if s == [] then []
    else
      var rest := Select(s[1..], p);
      assert forall e :: e in s[1..] ==> e in s;
      if p(s[0]) then [s[0]] + rest else rest
  }

  /** `get_single` on a query's matches: succeeds exactly when the query
      matches one entity, and then yields that entity. */
  function GetSingle(matches: seq<EntityId>): (r: Result<EntityId, QuerySingleError>)
    ensures r.Ok? <==> |matches| == 1
    ensures r.Ok? ==> matches == [r.value]
    ensures r == Err(NoEntities) <==> matches == []
    ensures r == Err(MultipleEntities) <==> |matches| > 1
  {
    if |matches| == 0 then Err(NoEntities)
    else if |matches| == 1 then Ok(matches[0])
    else Err(MultipleEntities)
  }

  /** On a repetition-free iteration order, `get_single` yields `e` exactly
      when `e` is the one and only match. */
  lemma {:induction false} GetSingleIffUnique(matches: seq<EntityId>, e: EntityId)
    requires Distinct(matches)
    ensures GetSingle(matches) == Ok(e) <==> (e in matches && forall x :: x in matches ==> x == e)
  {
    if |matches| > 1 {
      // two different matches, so no single entity is all of them
      assert matches[0] != matches[1];
      assert matches[0] in matches && matches[1] in matches;
    }
  }

  /** A sequence is empty exactly when nothing is a member of it. */
  lemma EmptyIffNoMember(s: seq<EntityId>)
    ensures s == [] <==> forall e :: e !in s
  {
    if s != [] {
      assert s[0] in s;
    }
  }
}
