/**
 * The part of a .NET `System.Type` that logger naming uses: the full name of
 * the type's (generic) definition and its type arguments. A type with type
 * arguments is a constructed generic type such as `Container<int>`.
 */
module ClrTypes {

  datatype ClrType = ClrType(definitionFullName: string, typeArguments: seq<ClrType>)
  {
    predicate IsConstructedGenericType() {
      |typeArguments| > 0
    }

    /** `Container<int>` to `Container<>`. */
    function GetGenericTypeDefinition(): (d: ClrType)
      requires IsConstructedGenericType()
      ensures !d.IsConstructedGenericType()
      ensures d.definitionFullName == definitionFullName
    {
      ClrType(definitionFullName, [])
    }

    /** `FullName`, as read on a type that is not a constructed generic type. */
    function FullName(): string
      requires !IsConstructedGenericType()
    {
      definitionFullName
    }
  }
}
