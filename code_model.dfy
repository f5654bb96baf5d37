/**
 * The nodes of the generated-code model that the entity translator builds:
 * types with their generic arguments, fields (also used as parameters),
 * imports, and methods. Javadoc text is left out; only the tags are kept.
 */
module CodeModel {
  import opened Wrappers

  /** A type reference: a class name and its generic arguments, in order. */
  datatype Type = Type(name: string, generics: seq<Generic>)

  /** A generic argument: its bound types, in order. */
  datatype Generic = Generic(bounds: seq<Type>)

  /** A field or a method parameter. */
  datatype Field = Field(name: string, typ: Type)

  datatype Import = Import(typ: Type)

  /** The Javadoc tags DefaultJavadocTag.PARAM, RETURN and SEE (their text is not modelled). */
  datatype JavadocTag = ParamTag(value: string) | ReturnTag | SeeTag

  /** A method: name, return type, thrown types, parameters and Javadoc tags if documented. */
  datatype Method = Method(
    name: string,
    returnType: Type,
    exceptions: seq<Type>,
    params: seq<Field>,
    javadoc: Optional<seq<JavadocTag>>)

  /** Type.of(Class): a type without generic arguments. */
  function TypeOf(name: string): Type {
    Type(name, [])
  }

  /** Type.add(Generic.of().add(bound)): appends a one-bound generic argument. */
  function AddGeneric(t: Type, bound: Type): Type {
    t.(generics := t.generics + [Generic([bound])])
  }

  /** Method.of(name, returnType): a method with nothing thrown, no parameters, no Javadoc. */
  function MethodOf(name: string, returnType: Type): Method {
    Method(name, returnType, [], [], Empty)
  }
}
