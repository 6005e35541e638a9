/** The product editor (client/src/pages/EditProduct.js): the form loaded from a stored
    product, with its lists joined into comma-separated text, and the data it saves. */
module EditProduct {
  import opened Common
  import opened Text
  import opened Forms
  import opened ProductModel
  import AddProduct

  function SpecificationFields(s: Specifications): map<string, FormValue> {
    map[
      "dimensions" := Text(s.dimensions.GetOr("")),
      "weight" := Text(s.weight.GetOr("")),
      "materials" := Text(Join(s.materials, ", ")),
      "customizable" := Flag(s.customizable.GetOr(false))]
  }

  /** `fetchProduct`: the form the editor fills from the product. Missing dimensions, weight and
      lists become '', a missing customizable becomes false. */
  function LoadProductForm(p: Product): (f: Form)
    ensures AddProduct.Splittable(f)
    ensures f["tags"] == Text(Join(p.tags, ", "))
    ensures f["specifications"].fields["materials"] == Text(Join(p.specifications.materials, ", "))
  {
    map[
      "name" := Text(p.name),
      "description" := Text(p.description),
      "category" := Text(CategoryName(p.category)),
      "price" := Group(map["amount" := Num(p.price.amount), "currency" := Text(p.price.currency),
                           "negotiable" := Flag(p.price.negotiable)]),
      "availability" := Text(AvailabilityName(p.availability)),
      "productionTime" := Text(p.productionTime),
      "specifications" := Group(SpecificationFields(p.specifications)),
      "tags" := Text(Join(p.tags, ", "))]
  }

  /** Empty lists load as empty text, and missing specification fields as '' and false. */
  lemma LoadDefaults(p: Product)
    ensures p.tags == [] ==> LoadProductForm(p)["tags"] == Text("")
    ensures var spec := LoadProductForm(p)["specifications"].fields;
      && (p.specifications.materials == [] ==> spec["materials"] == Text(""))
      && (p.specifications.dimensions.None? ==> spec["dimensions"] == Text(""))
      && (p.specifications.weight.None? ==> spec["weight"] == Text(""))
      && (p.specifications.customizable.None? ==> spec["customizable"] == Flag(false))
  {
  }

  /** `handleSubmit` builds the same product data as the new-product page. */
  function SavedData(form: Form): Option<Form> {
    AddProduct.ProductData(form)
  }

  /** Saving an unedited form gives the product's tags and materials back whenever each entry
      is clean (non-empty, trimmed, comma-free), as every entry a previous save stored is. */
  lemma SaveUnedited(p: Product)
    requires forall t :: t in p.tags ==> CleanEntry(t)
    requires forall m :: m in p.specifications.materials ==> CleanEntry(m)
    ensures var d := SavedData(LoadProductForm(p));
      && d.Some?
      && d.value["tags"] == Items(p.tags)
      && d.value["specifications"].fields["materials"] == Items(p.specifications.materials)
  {
    var f := LoadProductForm(p);
    AddProduct.ProductDataSpec(f);
    ParseJoin(p.tags);
    ParseJoin(p.specifications.materials);
  }

  /** Loading and saving again changes no list that a save produced: the parsed lists are a
      fixpoint of join-then-parse. */
  lemma SaveIsStable(tagsText: string, materialsText: string)
    ensures ParseList(Join(ParseList(tagsText), ", ")) == ParseList(tagsText)
    ensures ParseList(Join(ParseList(materialsText), ", ")) == ParseList(materialsText)
  {
    ParseIdempotent(tagsText);
    ParseIdempotent(materialsText);
  }
}
