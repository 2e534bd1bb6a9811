/** Type definitions: the validating `TypeDef` constructor and the module-level
  * `typeDefs` object that registers definitions by name. */
module TypeDefs {
  import opened Base
  import opened Js
  import opened Registries

  const MissingObject := "Missing object argument"
  const MissingName := "Missing name property"

  /** A constructed type definition: the properties copied onto the instance. */
  datatype TypeDef = TypeDef(fields: map<string, JsValue>) {
    function Name(): JsValue {
      Get(Object(fields), "name")
    }
  }

  /** What `add` is given: an existing instance, or anything else, which goes
    * through the constructor first. */
  datatype TypeDefArg = Instance(def: TypeDef) | Plain(obj: JsValue)

  /** `new TypeDef(obj)`: throws without an object or without a name; otherwise
    * the instance carries exactly the own properties of `obj`. */
  function NewTypeDef(obj: JsValue): (r: Result<TypeDef, string>)
    ensures !Truthy(obj) <==> r == Failure(MissingObject)
    ensures Truthy(obj) && !Truthy(Get(obj, "name")) <==> r == Failure(MissingName)
    ensures r.Success? ==> obj.Object? && r.value.fields == obj.props && Truthy(r.value.Name())
  {
    if !Truthy(obj) then Failure(MissingObject)
    else if !Truthy(Get(obj, "name")) then Failure(MissingName)
    else Success(TypeDef(OwnProps(obj)))
  }

  /** The definition `add` ends up storing, or the error it throws. */
  function Admit(arg: TypeDefArg): (r: Result<TypeDef, string>)
    ensures arg.Instance? ==> r == Success(arg.def)
    ensures arg.Plain? ==> r == NewTypeDef(arg.obj)
  {
    match arg
    case Instance(def) => Success(def)
    case Plain(obj) => NewTypeDef(obj)
  }

  /** `typeDefs[typeDef.name]`: the name converted to a property key. */
  function Key(def: TypeDef): string {
    ToString(def.Name())
  }

  /** Adding a plain object yields a definition named as the object was, so it
    * is stored under that name. */
  lemma AdmitKeepsName(obj: JsValue)
    requires NewTypeDef(obj).Success?
    ensures Key(NewTypeDef(obj).value) == ToString(Get(obj, "name"))
    ensures Get(obj, "name").Str? ==> Key(NewTypeDef(obj).value) == Get(obj, "name").s
  {
  }

  /** Adding twice under one name keeps only the later definition. */
  lemma AddReplaces(reg: Registry<TypeDef>, a: TypeDef, b: TypeDef)
    requires reg.Valid() && Key(a) == Key(b)
    ensures reg.Put(Key(a), a).Put(Key(b), b) == reg.Put(Key(b), b)
  {
    var r1 := reg.Put(Key(a), a);
    assert r1.order == reg.Put(Key(b), b).order;
  }

  class TypeDefRegistry {
    /** The module-level `typeDefs` object. */
    var typeDefs: Registry<TypeDef>

    ghost predicate Valid()
      reads this
    {
      typeDefs.Valid()
    }

    constructor ()
      ensures Valid() && typeDefs == Empty()
    {
      typeDefs := Empty();
    }

    /** `TypeDef.getAll()`: the registry itself. */
    method GetAll() returns (r: Registry<TypeDef>)
      requires Valid()
      ensures r.Valid()
      ensures forall name :: r.Lookup(name) == typeDefs.Lookup(name)
      ensures r.order == typeDefs.order
    {
      r := typeDefs;
    }

    /** `TypeDef.toJSON()`: the same object as `getAll`. */
    method ToJson() returns (r: Registry<TypeDef>)
      requires Valid()
      ensures r.Valid()
      ensures forall name :: r.Lookup(name) == typeDefs.Lookup(name)
      ensures r.order == typeDefs.order
    {
      r := GetAll();
    }

    /** `TypeDef.add(typeDef)`: an invalid plain object throws and leaves the
      * registry as it was; otherwise the definition is stored under its name,
      * replacing any earlier one, and no other name changes. */
    method Add(arg: TypeDefArg) returns (r: Result<TypeDef, string>)
      requires Valid()
      modifies this
      ensures Valid()
      ensures r == Admit(arg)
      ensures r.Failure? ==> typeDefs == old(typeDefs)
      ensures r.Success? ==> typeDefs.Lookup(Key(r.value)) == Some(r.value)
      ensures r.Success? ==> forall name :: name != Key(r.value) ==> typeDefs.Lookup(name) == old(typeDefs).Lookup(name)
      ensures r.Success? && Key(r.value) in old(typeDefs).entries ==> typeDefs.order == old(typeDefs).order
      ensures r.Success? && Key(r.value) !in old(typeDefs).entries ==> typeDefs.order == old(typeDefs).order + [Key(r.value)]
      ensures r.Success? ==> typeDefs == old(typeDefs).Put(Key(r.value), r.value)
    {
      var def: TypeDef;
      match arg {
        case Instance(d) =>
          def := d;
        case Plain(obj) =>
          var made := NewTypeDef(obj);
          if made.Failure? {
            return made;
          }
          def := made.value;
      }
      typeDefs := typeDefs.Put(Key(def), def);
      r := Success(def);
    }
  }
}
