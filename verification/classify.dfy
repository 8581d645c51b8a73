/**
 * The type-shape classifier of the derive macro: a field's declared type is recognised as a
 * `Vec<T>` or an `Option<T>` by the surface shape of its first path segment, or as neither.
 */
module Classify {

  import opened Wrappers
  import opened Syntax

  /** A recognised wrapper and the type it wraps. */
  datatype SpecialField = VecOf(inner: Ty) | OptionOf(inner: Ty)

  /** Reference description of "`ty` is written `name<inner, ...>...`": an unqualified path
      without a leading `::` whose first segment is `name` with angle-bracketed arguments, the
      first of which is the type `inner`. */
  ghost predicate Wraps(ty: Ty, name: string, inner: Ty)
  {
    && ty.PathTy?
    && ty.qself.None?
    && !ty.leadingColon
    && |ty.segments| > 0
    && ty.segments[0].ident == name
    && ty.segments[0].arguments.AngleBracketed?
    && |ty.segments[0].arguments.args| > 0
    && ty.segments[0].arguments.args[0] == TypeArg(inner)
  }

  /** The first type argument of a segment, if its arguments are angle-bracketed and the first of
      them is a type. */
  function FirstTypeArgument(segment: PathSegment): Option<Ty>
  {
    match segment.arguments
    case AngleBracketed(args) =>
      if |args| == 0 then None
      else if args[0].TypeArg? then Some(args[0].ty)
      else None
    case _ => None
  }

  /** Classifies a declared type. Only the first path segment and its first generic argument are
      examined; `Option` is tested before `Vec`. */
  function SpecialFieldInfo(ty: Ty): (r: Option<SpecialField>)
    ensures forall inner :: r == Some(OptionOf(inner)) <==> Wraps(ty, "Option", inner)
    ensures forall inner :: r == Some(VecOf(inner)) <==> Wraps(ty, "Vec", inner)
    ensures r.None? <==> forall inner :: !Wraps(ty, "Option", inner) && !Wraps(ty, "Vec", inner)
  {
    match ty
    case PathTy(None, false, segments) =>
      if |segments| == 0 then None
      else
        var segment := segments[0];
        if segment.ident == "Option" then
          match FirstTypeArgument(segment)
          case Some(arg) => Some(OptionOf(arg))
          case None => None
        else if segment.ident == "Vec" then
          match FirstTypeArgument(segment)
          case Some(arg) => Some(VecOf(arg))
          case None => None
        else None
    case _ => None
  }

  /** A type never looks like both wrappers at once. */
  lemma WrappersExclusive(ty: Ty, a: Ty, b: Ty)
    ensures !(Wraps(ty, "Option", a) && Wraps(ty, "Vec", b))
    ensures Wraps(ty, "Option", a) && Wraps(ty, "Option", b) ==> a == b
    ensures Wraps(ty, "Vec", a) && Wraps(ty, "Vec", b) ==> a == b
  {
  }

  /** Shapes that are not recognised: each of them classifies as no wrapper. */
  lemma UnrecognisedShapes(name: string, q: QSelf, segs: seq<PathSegment>, arg: GenericArgument,
                           rest: seq<GenericArgument>, inputs: seq<Ty>, kind: string)
    requires !arg.TypeArg?
    ensures SpecialFieldInfo(PathTy(Some(q), false, segs)) == None
    ensures SpecialFieldInfo(PathTy(None, true, segs)) == None
    ensures SpecialFieldInfo(PathTy(None, false, [])) == None
    ensures SpecialFieldInfo(PathTy(None, false, [PathSegment(name, NoArguments)] + segs)) == None
    ensures SpecialFieldInfo(PathTy(None, false, [PathSegment(name, AngleBracketed([]))] + segs)) == None
    ensures SpecialFieldInfo(PathTy(None, false, [PathSegment(name, AngleBracketed([arg] + rest))] + segs)) == None
    ensures SpecialFieldInfo(PathTy(None, false, [PathSegment(name, Parenthesized(inputs, None))] + segs)) == None
    ensures SpecialFieldInfo(OtherTy(kind)) == None
  {
  }

  /** Later segments and later generic arguments are never looked at: `Option<T, U>::X` is
      classified like `Option<T>`. */
  lemma OnlyFirstSegmentAndArgument(name: string, arg: GenericArgument, more: seq<GenericArgument>,
                                    rest: seq<PathSegment>)
    ensures SpecialFieldInfo(PathTy(None, false, [PathSegment(name, AngleBracketed([arg] + more))] + rest))
         == SpecialFieldInfo(PathTy(None, false, [PathSegment(name, AngleBracketed([arg]))]))
  {
  }

  /** Only one level of wrapper is peeled: `Option<Vec<T>>` is an `Option` of `Vec<T>`, and any
      identifier other than the two wrapper names is no wrapper. */
  lemma OneLevelOnly(outer: string, inner: Ty)
    ensures SpecialFieldInfo(Generic("Option", Generic("Vec", inner))) == Some(OptionOf(Generic("Vec", inner)))
    ensures SpecialFieldInfo(Generic("Vec", Generic("Option", inner))) == Some(VecOf(Generic("Option", inner)))
    ensures outer != "Option" && outer != "Vec" ==> SpecialFieldInfo(Generic(outer, inner)) == None
  {
  }
}
