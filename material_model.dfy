/** The Material entity: a countable lab material or reagent with its
    available stock, its category, and the bodies clients send to create or
    overwrite one. */
module MaterialModel {
  import opened Common

  datatype MaterialCategory = Material | Reactivo

  /** The enum member's name as the source spells it. */
  function CategoryName(c: MaterialCategory): string {
    match c
    case Material => "Material"
    case Reactivo => "Reactivo"
  }

  /** Enum.TryParse<MaterialCategory>(s, ignoreCase: true) on the member names:
      a string parses exactly when it equals, ignoring case, one member's name. */
  function ParseCategory(s: string): (r: Option<MaterialCategory>)
    ensures forall c :: r == Some(c) <==> EqualsIgnoreCase(s, CategoryName(c))
  {
    DifferAt("Material", "Reactivo", 0);
    if EqualsIgnoreCase(s, "Material") then Some(MaterialCategory.Material)
    else if EqualsIgnoreCase(s, "Reactivo") then Some(Reactivo)
    else None
  }

  /** Every category's own name parses back to it, and parsing ignores case. */
  lemma ParseCategoryName(c: MaterialCategory, s: string)
    ensures ParseCategory(CategoryName(c)) == Some(c)
    ensures ParseCategory(Upper(s)) == ParseCategory(s)
  {
    EqualsIgnoreCaseOfUpper(s, "Material");
    EqualsIgnoreCaseOfUpper(s, "Reactivo");
  }

  /** A stored material row (identity and timestamps left out). */
  datatype Material = Material(
    name: string,
    description: Option<string>,
    stock: int,
    category: MaterialCategory)

  /** The annotations on the entity: a required name of at most 100
      characters, a description of at most 500 and a stock that is never
      negative. The int.MaxValue cap on stock is not part of it: see
      ReservationMaterials.Release. */
  predicate ValidMaterial(m: Material) {
    && Required(m.name) && |m.name| <= 100
    && AtMost(m.description, 500)
    && 0 <= m.stock
  }

  /** CreateMaterialDto and UpdateMaterialDto carry the same fields. */
  datatype MaterialDto = MaterialDto(
    name: string,
    description: Option<string>,
    stock: int,
    category: string)

  /** The validation attributes of both bodies. */
  predicate ValidMaterialDto(d: MaterialDto) {
    && Required(d.name) && |d.name| <= 100
    && AtMost(d.description, 500)
    && 0 <= d.stock <= IntMax
    && Required(d.category)
  }

  /** A body that passes validation and whose category parses yields a valid row. */
  lemma DtoMakesValidMaterial(d: MaterialDto, c: MaterialCategory)
    requires ValidMaterialDto(d)
    ensures ValidMaterial(Material.Material(d.name, d.description, d.stock, c))
  {
  }
}
