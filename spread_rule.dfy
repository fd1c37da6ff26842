/** The `gts-spread-like-types` lint rule
    (libs/eslint-plugin-vx/src/rules/gts-spread-like-types.ts): iterables may
    be spread into arrays and calls, objects into objects. Types come from
    the TypeScript checker; here they are trees whose leaves carry the
    checker's type flags and whose nodes carry the property names the
    checker reports. Whether the argument is a collection type is a
    parameter as well. */
module SpreadRule {
  import opened Wrappers

  /** TypeFlags.Object and TypeFlags.NonPrimitive of the TypeScript compiler. */
  const ObjectFlag: bv32 := 1 << 19
  const NonPrimitiveFlag: bv32 := 1 << 26

  // 64 is the code of the at sign; the name reads "__", at sign, "iterator".
  const IteratorPropertyName: string := "__" + [64 as char] + "iterator"

  datatype TsType =
    | Union(members: seq<TsType>, properties: seq<string>)
    | Intersection(members: seq<TsType>, properties: seq<string>)
    | Leaf(flags: bv32, properties: seq<string>)

  /** isIterableType. */
  predicate IsIterableType(t: TsType) {
    exists i :: 0 <= i < |t.properties| && t.properties[i] == IteratorPropertyName
  }

  lemma IterableIff(t: TsType)
    ensures IsIterableType(t) <==> IteratorPropertyName in t.properties
  {
  }

  /** isObjectType: every member of a union, some member of an
      intersection, and for any other type one of the two flag bits. */
  predicate IsObjectType(t: TsType) {
    match t
    case Union(ms, _) => forall i :: 0 <= i < |ms| ==> IsObjectType(ms[i])
    case Intersection(ms, _) => exists i :: 0 <= i < |ms| && IsObjectType(ms[i])
    case Leaf(flags, _) => flags & ObjectFlag == ObjectFlag || flags & NonPrimitiveFlag == NonPrimitiveFlag
  }

  /** `every` and `some` as the left-to-right folds they are. */
  function EveryObject(ms: seq<TsType>): bool {
    if ms == [] then true else IsObjectType(ms[0]) && EveryObject(ms[1..])
  }

  function AnyObject(ms: seq<TsType>): bool {
    if ms == [] then false else IsObjectType(ms[0]) || AnyObject(ms[1..])
  }

  lemma {:induction false} EveryObjectIff(ms: seq<TsType>)
    ensures EveryObject(ms) <==> forall i :: 0 <= i < |ms| ==> IsObjectType(ms[i])
  {
    if ms != [] {
      EveryObjectIff(ms[1..]);
      assert forall i :: 1 <= i < |ms| ==> ms[i] == ms[1..][i - 1];
    }
  }

  lemma {:induction false} AnyObjectIff(ms: seq<TsType>)
    ensures AnyObject(ms) <==> exists i :: 0 <= i < |ms| && IsObjectType(ms[i])
  {
    if ms != [] {
      AnyObjectIff(ms[1..]);
      assert forall i :: 1 <= i < |ms| ==> ms[i] == ms[1..][i - 1];
    }
  }

  /** A union is an object type iff all its members are (so the empty one
      is); an intersection iff some member is (so the empty one is not). */
  lemma UnionAndIntersection(ms: seq<TsType>, properties: seq<string>)
    ensures IsObjectType(Union(ms, properties)) == EveryObject(ms)
    ensures IsObjectType(Intersection(ms, properties)) == AnyObject(ms)
    ensures IsObjectType(Union([], properties)) && !IsObjectType(Intersection([], properties))
  {
    EveryObjectIff(ms);
    AnyObjectIff(ms);
  }

  /** One non-object member makes a union non-object; one object member
      makes an intersection an object type. */
  lemma MemberDecides(ms: seq<TsType>, t: TsType, properties: seq<string>)
    ensures !IsObjectType(t) ==> !IsObjectType(Union(ms + [t], properties))
    ensures IsObjectType(t) ==> IsObjectType(Intersection(ms + [t], properties))
  {
    assert (ms + [t])[|ms|] == t;
  }

  datatype ParentKind = CallExpression | ArrayExpression | ObjectExpression | OtherParent(nodeType: string)

  datatype MessageId = RequireIterablesInArraySpread | RequireObjectsInObjectSpread | RequireIterablesInCallSpread

  /** The SpreadElement visitor: the one report it makes, if any, or the
      error it throws for an unexpected parent. */
  function SpreadReport(parent: ParentKind, argumentType: TsType, isCollection: bool): (r: Result<Option<MessageId>, string>)
    ensures r.Err? <==> parent.OtherParent?
    ensures r.Err? ==> r.error == "unexpected spread element parent: " + parent.nodeType
    ensures parent == ArrayExpression ==>
      r == if IsIterableType(argumentType) then Ok(None) else Ok(Some(RequireIterablesInArraySpread))
    ensures parent == CallExpression ==>
      r == if IsIterableType(argumentType) then Ok(None) else Ok(Some(RequireIterablesInCallSpread))
    ensures parent == ObjectExpression ==>
      (r.Ok? && (r.value.Some? <==> !IsObjectType(argumentType) || isCollection) &&
       (r.value.Some? ==> r.value.value == RequireObjectsInObjectSpread))
  {
    match parent
    case CallExpression | ArrayExpression =>
      if IsIterableType(argumentType) then Ok(None)
      else if parent == ArrayExpression then Ok(Some(RequireIterablesInArraySpread))
      else Ok(Some(RequireIterablesInCallSpread))
    case ObjectExpression =>
      var isObject := IsObjectType(argumentType);
      var collection := isObject && isCollection;
      if !isObject || collection then Ok(Some(RequireObjectsInObjectSpread)) else Ok(None)
    case OtherParent(nodeType) =>
      Err("unexpected spread element parent: " + nodeType)
  }

  /** An iterable argument is never reported in an array or a call, and an
      iterability report names the kind of parent. */
  lemma IterableSpreadsAllowed(parent: ParentKind, argumentType: TsType, isCollection: bool)
    requires parent == ArrayExpression || parent == CallExpression
    ensures SpreadReport(parent, argumentType, isCollection) == Ok(None) <==> IsIterableType(argumentType)
    ensures SpreadReport(parent, argumentType, isCollection) == Ok(Some(RequireIterablesInArraySpread)) ==> parent == ArrayExpression
  {
  }
}
