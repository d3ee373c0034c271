/** The two type tables: the C spelling of a Rust type for the header, and
    the type the `extern "C"` wrapper declares for it. Both look at the first
    path segment only. */
module TypeMap {
  import opened Text
  import opened Syntax

  /** An independent, data-driven statement of both tables: the entries for
      the recognised first segments. */
  datatype Mapping = Mapping(cType: string, externType: string)

  const KnownTypes: map<Ident, Mapping> := map[
    "i32" := Mapping("int", "i32"),
    "f64" := Mapping("double", "f64"),
    "u32" := Mapping("unsigned int", "u32"),
    "bool" := Mapping("bool", "bool"),
    "String" := Mapping("char*", "*mut core::ffi::c_char"),
    "Vec" := Mapping("void*", "*mut cor:::ffi::c_void"),
    "Option" := Mapping("void*", "*mut core::ffi::c_void")
  ]

  /** The wrapper type of an owned string, which the wrapper converts back
      into a C string when it is a return type. */
  const CCharPointer: string := "*mut core::ffi::c_char"

  /** The header's spelling of a type: the table entry of a recognised first
      segment, a pointer to any other first segment (spelled exactly as
      written), and `void*` for a type that is not a path. */
  function RustTypeToC(ty: Type): (c: string)
    ensures ty.Path? && ty.segments[0] in KnownTypes ==> c == KnownTypes[ty.segments[0]].cType
    ensures ty.Path? && ty.segments[0] !in KnownTypes ==> c == ty.segments[0] + "*"
    ensures !ty.Path? ==> c == "void*"
  {
    match ty
    case Path(segments) =>
      var ident := segments[0];
      if ident == "i32" then "int"
      else if ident == "f64" then "double"
      else if ident == "u32" then "unsigned int"
      else if ident == "bool" then "bool"
      else if ident == "String" then "char*"
      else if ident == "Vec" then "void" + "*"
      else if ident == "Option" then "void" + "*"
      else ident + "*"
    case _ => "void*"
  }

  /** The wrapper's type for a Rust type: the table entry of a recognised
      first segment, the first segment itself otherwise, and `void` for a type
      that is not a path. */
  function RustTypeToRustExternC(ty: Type): (e: string)
    ensures ty.Path? && ty.segments[0] in KnownTypes ==> e == KnownTypes[ty.segments[0]].externType
    ensures ty.Path? && ty.segments[0] !in KnownTypes ==> e == ty.segments[0]
    ensures !ty.Path? ==> e == "void"
  {
    match ty
    case Path(segments) =>
      var ident := segments[0];
      if ident == "i32" then "i32"
      else if ident == "f64" then "f64"
      else if ident == "u32" then "u32"
      else if ident == "bool" then "bool"
      else if ident == "String" then CCharPointer
      else if ident == "Vec" then "*mut cor:::ffi::c_void"
      else if ident == "Option" then "*mut core::ffi::c_void"
      else ident
    case _ => "void"
  }

  /** Only the first segment matters: `std::string::String` maps as `std`,
      and `String` with any further segments maps as `String`. */
  lemma FirstSegmentOnly(a: Type, b: Type)
    requires a.Path? && b.Path? && a.segments[0] == b.segments[0]
    ensures RustTypeToC(a) == RustTypeToC(b)
    ensures RustTypeToRustExternC(a) == RustTypeToRustExternC(b)
  {
  }

  /** The wrapper type is `void` exactly for a type that is not a path, or a
      path whose first segment is itself `void`. */
  lemma ExternVoidIff(ty: Type)
    ensures RustTypeToRustExternC(ty) == "void" <==> !ty.Path? || ty.segments[0] == "void"
  {
  }

  /** The wrapper type is the C-string pointer exactly for a path whose first
      segment is `String`, when that segment is an identifier's text. */
  lemma {:induction false} ExternCCharIff(ty: Type)
    requires WellFormedType(ty)
    ensures RustTypeToRustExternC(ty) == CCharPointer <==> ty.Path? && ty.segments[0] == "String"
  {
    if ty.Path? {
      assert IsIdentifier(ty.segments[0]);
      IdentifierHasNo(ty.segments[0], '*');
      assert CCharPointer[0] == '*';
    }
  }

  /** A text the header can use as one type: non-empty, not starting with a
      blank, and free of the characters the header's syntax is cut at (`,`,
      `(`, `)`, `;`, a line break). */
  predicate IsCToken(c: string)
  {
    |c| > 0 && c[0] != ' ' && ',' !in c && '(' !in c && ')' !in c && ';' !in c && '\n' !in c
  }

  lemma PointerIsToken(ident: Ident)
    requires IsIdentifier(ident)
    ensures IsCToken(ident + "*")
  {
    IdentifierHasNo(ident, ' ');
    IdentifierHasNo(ident, ',');
    IdentifierHasNo(ident, '(');
    IdentifierHasNo(ident, ')');
    IdentifierHasNo(ident, ';');
    IdentifierHasNo(ident, '\n');
    assert ident[0] in ident;
  }

  /** The fixed header spellings are tokens. */
  lemma FixedCTypesAreTokens()
    ensures IsCToken("int") && IsCToken("double") && IsCToken("unsigned int")
    ensures IsCToken("bool") && IsCToken("char*") && IsCToken("void" + "*") && IsCToken("void*")
  {
  }

  /** Every header type is such a token. */
  lemma CTypeIsToken(ty: Type)
    requires WellFormedType(ty)
    ensures IsCToken(RustTypeToC(ty))
  {
    FixedCTypesAreTokens();
    if ty.Path? {
      var ident := ty.segments[0];
      assert IsIdentifier(ident);
      if ident !in KnownTypes {
        PointerIsToken(ident);
      }
    }
  }
}
