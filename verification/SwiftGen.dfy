// Which OpenAPI schemas become Swift types, and what those types name
// (contract/gen_swift_dto.py).
module SwiftGen {
  import opened Wrappers

  // ---- JSON schemas ----

  datatype JsonType = Null | Text | Integer | Number | Boolean | Array | Object | Unknown

  datatype Format = DateOnly | DateTime | NoFormat

  // A property schema: the keys the generator reads.
  datatype Union = NoUnion | AnyOf(branches: seq<Prop>)

  datatype Prop = Prop(
    ref: Option<string>, anyOf: Union, jtype: Option<JsonType>, hasEnum: bool, format: Format,
    items: Option<Prop>, additional: Option<Prop>)

  datatype Schema = Schema(jtype: Option<JsonType>, hasEnum: bool, properties: Option<map<string, Prop>>)

  type Schemas = map<string, Schema>

  function PropsOf(s: Schema): map<string, Prop> { if s.properties.Some? then s.properties.value else map[] }

  // ---- Swift types ----

  datatype SwiftType =
    | Generated(name: string)  // Gen.<schema>
    | InlineEnum
    | BusinessDay | Instant | Str | Whole | Real | Flag
    | ListOf(elem: SwiftType)
    | DictOf(value: SwiftType)
    | Unsupported

  function Names(t: SwiftType): set<string> {
    match t
    case Generated(name) => {name}
    case ListOf(elem) => Names(elem)
    case DictOf(value) => Names(value)
    case _ => {}
  }

  predicate Opaque(t: SwiftType) {
    match t
    case Unsupported => true
    case ListOf(elem) => Opaque(elem)
    case DictOf(value) => Opaque(value)
    case _ => false
  }

  // The first branch of a union that is not null.
  function FirstBranch(branches: seq<Prop>): (r: Option<Prop>)
    ensures r.Some? ==> r.value in branches
  {
    if |branches| == 0 then None
    else if branches[0].jtype == Some(Null) then FirstBranch(branches[1..])
    else Some(branches[0])
  }

  // Amounts in cents are whole numbers even where the wire says "number".
  predicate IsMoney(propName: string) { |propName| >= 6 && propName[|propName| - 6..] == "_cents" }

  function SwiftBaseType(p: Prop, propName: string): SwiftType {
    if p.ref.Some? then Generated(p.ref.value)
    else if p.anyOf.AnyOf? && FirstBranch(p.anyOf.branches).Some? then
      var branch := FirstBranch(p.anyOf.branches).value;
      assert branch in p.anyOf.branches;
      SwiftBaseType(branch, propName)
    else
      match p.jtype
      case Some(Text) => if p.format.DateOnly? then BusinessDay else if p.format.DateTime? then Instant else Str
      case Some(Integer) => Whole
      case Some(Number) => if IsMoney(propName) then Whole else Real
      case Some(Boolean) => Flag
      case Some(Array) => ListOf(if p.items.Some? then SwiftBaseType(p.items.value, propName) else Unsupported)
      case Some(Object) =>
        if p.additional.Some? && !Opaque(SwiftBaseType(p.additional.value, propName))
        then DictOf(SwiftBaseType(p.additional.value, propName)) else Unsupported
      case _ => Unsupported
  }

  predicate IsTextEnum(p: Prop) { p.jtype == Some(Text) && p.hasEnum }

  predicate HasInlineEnum(p: Prop) {
    IsTextEnum(p) || (p.anyOf.AnyOf? && exists b | b in p.anyOf.branches :: IsTextEnum(b))
  }

  function PropType(p: Prop, propName: string): SwiftType {
    if HasInlineEnum(p) then InlineEnum else SwiftBaseType(p, propName)
  }

  // ---- References ----

  function PropRefs(p: Prop): set<string> {
    (if p.ref.Some? then {p.ref.value} else {})
    + (if p.anyOf.AnyOf? then set b, r | b in p.anyOf.branches && r in PropRefs(b) :: r else {})
    + (if p.jtype == Some(Array) && p.items.Some? then PropRefs(p.items.value) else {})
    + (if p.additional.Some? then PropRefs(p.additional.value) else {})
  }

  // Whatever a Swift type names is among the references of its property.
  lemma {:induction false} NamesAreRefs(p: Prop, propName: string)
    ensures Names(SwiftBaseType(p, propName)) <= PropRefs(p)
  {
    if p.ref.Some? {
    } else if p.anyOf.AnyOf? && FirstBranch(p.anyOf.branches).Some? {
      NamesAreRefs(FirstBranch(p.anyOf.branches).value, propName);
      assert FirstBranch(p.anyOf.branches).value in p.anyOf.branches;
    } else if p.jtype == Some(Array) && p.items.Some? {
      NamesAreRefs(p.items.value, propName);
    } else if p.jtype == Some(Object) && p.additional.Some? {
      NamesAreRefs(p.additional.value, propName);
    }
  }

  function Deps(s: Schema): set<string> {
    set n, r | n in PropsOf(s) && r in PropRefs(PropsOf(s)[n]) :: r
  }

  // ---- What cannot be modelled ----

  predicate Typed(p: Prop) { p.jtype.Some? || p.ref.Some? || p.anyOf.AnyOf? }

  predicate OpaqueProp(p: Prop) {
    !Typed(p) || (p.jtype == Some(Object) && !(p.additional.Some? && Typed(p.additional.value)))
  }

  predicate IsEnumSchema(s: Schema) { s.jtype == Some(Text) && s.hasEnum }

  predicate IsStructSchema(s: Schema) { s.jtype == Some(Object) || s.properties.Some? }

  predicate IntrinsicallyUnsupported(s: Schema) {
    !IsEnumSchema(s) && (!IsStructSchema(s) || exists n | n in PropsOf(s) :: OpaqueProp(PropsOf(s)[n]))
  }

  // ---- The pre-skipped schemas ----

  predicate Touches(deps: set<string>, s: set<string>) { exists n | n in deps :: n in s }

  // Contains every unsupported schema and every schema that refers to a member.
  predicate Closed(schemas: Schemas, s: set<string>) {
    forall n | n in schemas :: IntrinsicallyUnsupported(schemas[n]) || Touches(Deps(schemas[n]), s) ==> n in s
  }

  // The least closed set.
  ghost predicate LeastClosed(schemas: Schemas, s: set<string>) {
    s <= schemas.Keys && Closed(schemas, s) && forall other: set<string> | Closed(schemas, other) :: s <= other
  }

  lemma LeastIsUnique(schemas: Schemas, s: set<string>, t: set<string>)
    requires LeastClosed(schemas, s) && LeastClosed(schemas, t)
    ensures s == t
  {
    assert s <= t && t <= s;
  }

  lemma TouchGrows(deps: set<string>, s: set<string>, other: set<string>)
    requires s <= other && Touches(deps, s)
    ensures Touches(deps, other)
  {
  }

  // The fixpoint loop, over the schemas in any order: it ends, and with the
  // least closed set.
  method ComputeSkipped(schemas: Schemas, order: seq<string>) returns (skipped: set<string>)
    requires forall n :: n in order <==> n in schemas
    ensures LeastClosed(schemas, skipped)
  {
    hide IntrinsicallyUnsupported, Deps, Touches;
    skipped := set n | n in schemas && IntrinsicallyUnsupported(schemas[n]);
    var deps := map n | n in schemas :: Deps(schemas[n]);
    var changed := true;
    while changed
      invariant skipped <= schemas.Keys
      invariant forall n | n in schemas && IntrinsicallyUnsupported(schemas[n]) :: n in skipped
      invariant forall other: set<string> | Closed(schemas, other) :: skipped <= other
      invariant !changed ==> forall n | n in schemas && Touches(Deps(schemas[n]), skipped) :: n in skipped
      decreases schemas.Keys - skipped, changed
    {
      changed := false;
      ghost var before := skipped;
      for k := 0 to |order|
        invariant before <= skipped <= schemas.Keys && (changed ==> before < skipped)
        invariant forall other: set<string> | Closed(schemas, other) :: skipped <= other
        invariant !changed ==> skipped == before
                               && forall j | 0 <= j < k && Touches(Deps(schemas[order[j]]), skipped) ::
                                   order[j] in skipped
      {
        var n := order[k];
        assert n in schemas;
        if n !in skipped && Touches(deps[n], skipped) {
          forall other: set<string> | Closed(schemas, other)
            ensures n in other
          {
            TouchGrows(Deps(schemas[n]), skipped, other);
          }
          skipped := skipped + {n};
          changed := true;
        }
      }
      if !changed {
        forall n | n in schemas && Touches(Deps(schemas[n]), skipped)
          ensures n in skipped
        {
          var j :| 0 <= j < |order| && order[j] == n;
        }
      }
    }
  }

  // ---- What is emitted ----

  // render_struct gives up on a type it cannot write.
  predicate Renderable(s: Schema) { forall n | n in PropsOf(s) :: !Opaque(PropType(PropsOf(s)[n], n)) }

  predicate Emitted(schemas: Schemas, skipped: set<string>, n: string) {
    n in schemas && n !in skipped && (IsEnumSchema(schemas[n])
        || (IsStructSchema(schemas[n]) && Renderable(schemas[n])))
  }

  // Schema m is named in the Swift struct of schema n.
  predicate NamedIn(schemas: Schemas, n: string, m: string) {
    n in schemas && !IsEnumSchema(schemas[n])
    && exists p | p in PropsOf(schemas[n]) :: m in Names(PropType(PropsOf(schemas[n])[p], p))
  }

  lemma InlineNamesNothing()
    ensures Names(InlineEnum) == {}
  {
  }

  lemma NamedIsDep(schemas: Schemas, n: string, m: string)
    requires NamedIn(schemas, n, m)
    ensures m in Deps(schemas[n])
  {
    hide PropRefs, SwiftBaseType, Names, HasInlineEnum, IsEnumSchema;
    var props := PropsOf(schemas[n]);
    var p :| p in props && m in Names(PropType(props[p], p));
    InlineNamesNothing();
    NamesAreRefs(props[p], p);
    assert m in PropRefs(props[p]);
  }

  // No emitted struct names a pre-skipped schema.
  lemma EmittedAvoidsSkipped(schemas: Schemas, skipped: set<string>, n: string, m: string)
    requires LeastClosed(schemas, skipped) && Emitted(schemas, skipped, n) && NamedIn(schemas, n, m)
    ensures m !in skipped
  {
    hide Deps, NamedIn, Renderable, IntrinsicallyUnsupported, IsEnumSchema, IsStructSchema;
    NamedIsDep(schemas, n, m);
    assert !Touches(Deps(schemas[n]), skipped);
  }

  lemma UnskippedIsKnownKind(schemas: Schemas, skipped: set<string>, n: string)
    requires LeastClosed(schemas, skipped) && n in schemas && n !in skipped
    ensures IsEnumSchema(schemas[n]) || IsStructSchema(schemas[n])
  {
    hide Deps, OpaqueProp, Touches;
    assert !IntrinsicallyUnsupported(schemas[n]);
  }

  // A schema an emitted struct names is itself emitted, exactly when the
  // document has it and render_struct does not drop it late.
  lemma NamedIsEmittedExactly(schemas: Schemas, skipped: set<string>, n: string, m: string)
    requires LeastClosed(schemas, skipped) && Emitted(schemas, skipped, n) && NamedIn(schemas, n, m)
    ensures Emitted(schemas, skipped, m) <==> m in schemas && (IsEnumSchema(schemas[m]) || Renderable(schemas[m]))
  {
    EmittedAvoidsSkipped(schemas, skipped, n, m);
    if m in schemas {
      UnskippedIsKnownKind(schemas, skipped, m);
    }
    hide LeastClosed, NamedIn, Renderable;
  }

  // ---- Whole documents ----

  // Where the type of a property ends: follow the first branch that is not
  // null, the items of lists and the values of dictionaries.
  datatype End = AtRef(name: string) | AtType | Untyped

  function TypeEnd(p: Prop): End {
    if p.ref.Some? then AtRef(p.ref.value)
    else if p.anyOf.AnyOf? && FirstBranch(p.anyOf.branches).Some? then
      var branch := FirstBranch(p.anyOf.branches).value;
      assert branch in p.anyOf.branches;
      TypeEnd(branch)
    else
      match p.jtype
      case Some(Array) => if p.items.Some? then TypeEnd(p.items.value) else Untyped
      case Some(Object) => if p.additional.Some? then TypeEnd(p.additional.value) else Untyped
      case Some(Null) => Untyped
      case Some(Unknown) => Untyped
      case None => Untyped
      case Some(_) => AtType
  }

  lemma {:induction false} EndDecides(p: Prop, propName: string)
    ensures Opaque(SwiftBaseType(p, propName)) <==> TypeEnd(p).Untyped?
    ensures forall m :: m in Names(SwiftBaseType(p, propName)) <==> TypeEnd(p) == AtRef(m)
  {
    if p.ref.Some? {
    } else if p.anyOf.AnyOf? && FirstBranch(p.anyOf.branches).Some? {
      EndDecides(FirstBranch(p.anyOf.branches).value, propName);
      assert FirstBranch(p.anyOf.branches).value in p.anyOf.branches;
    } else if p.jtype == Some(Array) && p.items.Some? {
      EndDecides(p.items.value, propName);
    } else if p.jtype == Some(Object) && p.additional.Some? {
      EndDecides(p.additional.value, propName);
    } else {
    }
  }

  // No property ends untyped, inline enums aside.
  predicate Written(s: Schema) {
    forall p | p in PropsOf(s) :: HasInlineEnum(PropsOf(s)[p]) || !TypeEnd(PropsOf(s)[p]).Untyped?
  }

  // Some property ends at schema m.
  predicate EndsAt(s: Schema, m: string) {
    exists p | p in PropsOf(s) :: !HasInlineEnum(PropsOf(s)[p]) && TypeEnd(PropsOf(s)[p]) == AtRef(m)
  }

  lemma RenderableIsWritten(s: Schema)
    ensures Renderable(s) <==> Written(s)
  {
    forall p | p in PropsOf(s)
      ensures Opaque(PropType(PropsOf(s)[p], p))
        <==> !HasInlineEnum(PropsOf(s)[p]) && TypeEnd(PropsOf(s)[p]).Untyped?
    {
      EndDecides(PropsOf(s)[p], p);
    }
    hide PropsOf, PropType, HasInlineEnum, TypeEnd, Opaque;
  }

  lemma NamedIsEnd(schemas: Schemas, n: string, m: string)
    requires n in schemas
    ensures NamedIn(schemas, n, m) <==> !IsEnumSchema(schemas[n]) && EndsAt(schemas[n], m)
  {
    var props := PropsOf(schemas[n]);
    forall p | p in props
      ensures m in Names(PropType(props[p], p)) <==> !HasInlineEnum(props[p]) && TypeEnd(props[p]) == AtRef(m)
    {
      EndDecides(props[p], p);
    }
    hide PropsOf, PropType, HasInlineEnum, TypeEnd, Names;
  }

  // The structs the generator writes.
  predicate WrittenStruct(schemas: Schemas, skipped: set<string>, n: string) {
    n in schemas && n !in skipped && !IsEnumSchema(schemas[n]) && Written(schemas[n])
  }

  // The document has schema m, and it is an enum or a struct that can be written.
  predicate CanBeNamed(schemas: Schemas, m: string) {
    m in schemas && (IsEnumSchema(schemas[m]) || Written(schemas[m]))
  }

  // The output compiles: whatever an emitted struct names is emitted.
  ghost predicate NamesResolve(schemas: Schemas, skipped: set<string>) {
    forall n, m | Emitted(schemas, skipped, n) && NamedIn(schemas, n, m) :: Emitted(schemas, skipped, m)
  }

  ghost predicate EndsCanBeNamed(schemas: Schemas, skipped: set<string>) {
    forall n, m | WrittenStruct(schemas, skipped, n) && EndsAt(schemas[n], m) :: CanBeNamed(schemas, m)
  }

  lemma NamingStructs(schemas: Schemas, skipped: set<string>, n: string, m: string)
    requires LeastClosed(schemas, skipped)
    ensures Emitted(schemas, skipped, n) && NamedIn(schemas, n, m)
        <==> WrittenStruct(schemas, skipped, n) && EndsAt(schemas[n], m)
  {
    if n in schemas && n !in skipped {
      NamedIsEnd(schemas, n, m);
      RenderableIsWritten(schemas[n]);
      UnskippedIsKnownKind(schemas, skipped, n);
    }
    hide LeastClosed, IsEnumSchema, IsStructSchema, EndsAt, Written, Renderable;
  }

  lemma NamedCanBeNamed(schemas: Schemas, skipped: set<string>, n: string, m: string)
    requires LeastClosed(schemas, skipped) && Emitted(schemas, skipped, n) && NamedIn(schemas, n, m)
    ensures Emitted(schemas, skipped, m) <==> CanBeNamed(schemas, m)
  {
    if m in schemas {
      RenderableIsWritten(schemas[m]);
    }
    hide Renderable, Written, IsEnumSchema, LeastClosed, Emitted, NamedIn;
    NamedIsEmittedExactly(schemas, skipped, n, m);
  }

  // Every name in every emitted struct is emitted, if and only if each schema
  // at which a property of a written struct ends is in the document and is an
  // enum or has no property that ends untyped.
  lemma NamesResolveExactly(schemas: Schemas, skipped: set<string>)
    requires LeastClosed(schemas, skipped)
    ensures NamesResolve(schemas, skipped) <==> EndsCanBeNamed(schemas, skipped)
  {
    hide LeastClosed, Emitted, NamedIn, EndsAt, CanBeNamed;
    forall n, m
      ensures Emitted(schemas, skipped, n) && NamedIn(schemas, n, m)
        <==> WrittenStruct(schemas, skipped, n) && EndsAt(schemas[n], m)
    {
      NamingStructs(schemas, skipped, n, m);
    }
    forall n, m | Emitted(schemas, skipped, n) && NamedIn(schemas, n, m)
      ensures Emitted(schemas, skipped, m) <==> CanBeNamed(schemas, m)
    {
      NamedCanBeNamed(schemas, skipped, n, m);
    }
  }

  // ---- A dangling name ----

  const UNTYPED_LIST := Prop(None, NoUnion, Some(Array), false, NoFormat, None, None)

  const LATE := Schema(Some(Object), false, Some(map["x" := UNTYPED_LIST]))

  const LATE_REF := Prop(Some("Late"), NoUnion, None, false, NoFormat, None, None)

  const USER := Schema(Some(Object), false, Some(map["late" := LATE_REF]))

  // A list without an item type passes the first test and is dropped late; a
  // struct that names its schema is emitted all the same.
  lemma LateDropDangles()
    ensures var schemas := map["Late" := LATE, "User" := USER];
            && LeastClosed(schemas, {}) && Emitted(schemas, {}, "User") && NamedIn(schemas, "User", "Late")
            && !Emitted(schemas, {}, "Late")
  {
    var schemas := map["Late" := LATE, "User" := USER];
    assert PropsOf(LATE)["x"] == UNTYPED_LIST;
    assert Opaque(PropType(UNTYPED_LIST, "x"));
    var named := PropsOf(USER)["late"];
    assert PropType(named, "late") == Generated("Late");
    assert "late" in PropsOf(USER) && "Late" in Names(PropType(named, "late"));
    assert !IntrinsicallyUnsupported(LATE) && !IntrinsicallyUnsupported(USER);
  }

  // A reference to a schema the document lacks is never pre-skipped either.
  lemma AbsentRefDangles()
    ensures var schemas := map["User" := USER];
            && LeastClosed(schemas, {}) && Emitted(schemas, {}, "User") && NamedIn(schemas, "User", "Late")
            && !Emitted(schemas, {}, "Late")
  {
    var schemas := map["User" := USER];
    var named := PropsOf(USER)["late"];
    assert PropType(named, "late") == Generated("Late");
    assert "late" in PropsOf(USER) && "Late" in Names(PropType(named, "late"));
    assert "Late" !in schemas by {
      assert |"Late"| == |"User"| && "Late"[0] != "User"[0];
    }
    assert !IntrinsicallyUnsupported(USER);
  }
}
