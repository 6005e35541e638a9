/** The new-product page (client/src/pages/AddProduct.js): the form and its change handler,
    the product data with parsed materials and tags, and the multipart body assembled from
    the selected images and the data's keys. */
module AddProduct {
  import opened Common
  import opened Text
  import opened Forms
  import ProductModel
  import ProductController

  const InitialProductForm: Form := map[
    "name" := Text(""),
    "description" := Text(""),
    "category" := Text("Pottery"),
    "price" := Group(map["amount" := Text(""), "negotiable" := Flag(false)]),
    "availability" := Text("in-stock"),
    "productionTime" := Text(""),
    "specifications" := Group(map["dimensions" := Text(""), "weight" := Text(""),
                                  "materials" := Text(""), "customizable" := Flag(false)]),
    "tags" := Text("")]

  /** `handleChange` of the product forms: the control's `checked` or `value` under its name. */
  function ProductChange(form: Form, c: Control): Form {
    SetField(form, c.name, ControlValue(c))
  }

  /** The form holds text where `handleSubmit` splits it. */
  predicate Splittable(form: Form) {
    && "specifications" in form && form["specifications"].Group?
    && "materials" in form["specifications"].fields
    && form["specifications"].fields["materials"].Text?
    && "tags" in form && form["tags"].Text?
  }

  /** The field `key` replaced, keeping the form's keys. */
  function Replace(form: Form, key: string, v: FormValue): (r: Form)
    requires key in form
    ensures r.Keys == form.Keys
  {
    form[key := v]
  }

  /** `productData`: the form with `specifications.materials` and `tags` replaced by their
      comma-separated entries, trimmed, empty ones dropped. When either is not text, `split`
      throws and nothing is submitted (None). */
  function ProductData(form: Form): (r: Option<Form>)
    ensures r.Some? <==> Splittable(form)
    ensures r.Some? ==> r.value.Keys == form.Keys
  {
    if Splittable(form) then
      var spec := form["specifications"].fields;
      var withMaterials := Replace(form, "specifications", Group(spec["materials" := Items(ParseList(spec["materials"].s))]));
      Some(Replace(withMaterials, "tags", Items(ParseList(form["tags"].s))))
    else None
  }

  /** Replacing `specifications` and then `tags` keeps the keys and every other field. */
  lemma ReplaceBoth(form: Form, spec: FormValue, tags: FormValue)
    requires "specifications" in form && "tags" in form
    ensures var d := Replace(Replace(form, "specifications", spec), "tags", tags);
      && d.Keys == form.Keys && d["tags"] == tags && d["specifications"] == spec
      && (forall k :: k in form && k != "specifications" && k != "tags" ==> d[k] == form[k])
  {
    assert "specifications" != "tags" by {
      assert |"specifications"| != |"tags"|;
    }
  }

  /** The product data has the form's keys; it parses tags and materials and keeps every other
      field, including the other specification fields, as the form holds it. */
  lemma ProductDataSpec(form: Form)
    requires Splittable(form)
    ensures var d := ProductData(form).value;
      && d.Keys == form.Keys
      && (forall k :: k in form && k != "specifications" && k != "tags" ==> d[k] == form[k])
      && d["tags"] == Items(ParseList(form["tags"].s))
      && d["specifications"] == Group(form["specifications"].fields["materials" := Items(ParseList(form["specifications"].fields["materials"].s))])
  {
    var spec := form["specifications"].fields;
    ReplaceBoth(form, Group(spec["materials" := Items(ParseList(spec["materials"].s))]),
                Items(ParseList(form["tags"].s)));
  }

  /** Submitted materials and tags are clean entries: non-empty, comma-free, trimmed. */
  lemma ProductDataClean(form: Form)
    requires Splittable(form)
    ensures var d := ProductData(form).value;
      && d["tags"].Items? && (forall t :: t in d["tags"].xs ==> CleanEntry(t))
      && d["specifications"].Group? && "materials" in d["specifications"].fields
      && d["specifications"].fields["materials"].Items?
      && (forall m :: m in d["specifications"].fields["materials"].xs ==> CleanEntry(m))
  {
    ProductDataSpec(form);
    ParseListClean(form["tags"].s);
    ParseListClean(form["specifications"].fields["materials"].s);
  }

  /** One field of a multipart body: a file, a JSON-encoded object or array, or a plain value. */
  datatype PartValue = FilePart(file: string) | JsonPart(json: FormValue) | PlainPart(plain: FormValue)

  datatype Part = Part(key: string, value: PartValue)

  /** One `images` file part per selected image, in selection order. */
  function ImageParts(images: seq<string>): (r: seq<Part>)
    ensures |r| == |images|
    ensures forall i :: 0 <= i < |r| ==> r[i] == Part("images", FilePart(images[i]))
  {
    seq(|images|, i requires 0 <= i < |images| => Part("images", FilePart(images[i])))
  }

  /** `typeof value === 'object'`: groups and arrays are sent as JSON. */
  function FieldPart(key: string, v: FormValue): Part {
    if v.Group? || v.Items? then Part(key, JsonPart(v)) else Part(key, PlainPart(v))
  }

  function FieldParts(data: Form, keys: seq<string>): (r: seq<Part>)
    requires forall k :: k in keys ==> k in data
    ensures |r| == |keys|
    ensures forall i :: 0 <= i < |r| ==> r[i] == FieldPart(keys[i], data[keys[i]])
  {
    seq(|keys|, i requires 0 <= i < |keys| => FieldPart(keys[i], data[keys[i]]))
  }

  /** The names of the files a multipart body carries under `images`, in order: what the upload
      middleware hands the handler. */
  function UploadedFiles(parts: seq<Part>): seq<string> {
    if parts == [] then []
    else if parts[0].key == "images" && parts[0].value.FilePart? then [parts[0].value.file] + UploadedFiles(parts[1..])
    else UploadedFiles(parts[1..])
  }

  lemma {:induction false} UploadedFilesAppend(a: seq<Part>, b: seq<Part>)
    ensures UploadedFiles(a + b) == UploadedFiles(a) + UploadedFiles(b)
  {
    if a == [] {
      assert a + b == b;
    } else {
      assert (a + b)[1..] == a[1..] + b;
      UploadedFilesAppend(a[1..], b);
    }
  }

  lemma {:induction false} UploadedImageParts(images: seq<string>)
    ensures UploadedFiles(ImageParts(images)) == images
  {
    if images != [] {
      assert ImageParts(images)[1..] == ImageParts(images[1..]);
      UploadedImageParts(images[1..]);
      assert [images[0]] + images[1..] == images;
    }
  }

  lemma {:induction false} NoFilesInFields(data: Form, keys: seq<string>)
    requires forall k :: k in keys ==> k in data
    ensures UploadedFiles(FieldParts(data, keys)) == []
  {
    if keys != [] {
      assert FieldParts(data, keys)[1..] == FieldParts(data, keys[1..]);
      NoFilesInFields(data, keys[1..]);
    }
  }

  /** `new FormData()` and its `append`. */
  class FormDataBuffer {
    var parts: seq<Part>

    constructor ()
      ensures parts == []
    {
      parts := [];
    }

    method Append(p: Part)
      modifies this
      ensures parts == old(parts) + [p]
    {
      parts := parts + [p];
    }

    /** `images.forEach(image => formDataToSend.append('images', image))`. */
    method AppendImages(images: seq<string>)
      modifies this
      ensures parts == old(parts) + ImageParts(images)
    {
      for i := 0 to |images|
        invariant parts == old(parts) + ImageParts(images[..i])
      {
        assert ImageParts(images[..i + 1]) == ImageParts(images[..i]) + [Part("images", FilePart(images[i]))];
        Append(Part("images", FilePart(images[i])));
      }
      assert images[..|images|] == images;
    }

    /** `Object.keys(productData).forEach(...)`, with the object's key order given as `keys`. */
    method AppendFields(data: Form, keys: seq<string>)
      requires forall k :: k in keys ==> k in data
      modifies this
      ensures parts == old(parts) + FieldParts(data, keys)
    {
      for i := 0 to |keys|
        invariant parts == old(parts) + FieldParts(data, keys[..i])
      {
        assert FieldParts(data, keys[..i + 1]) == FieldParts(data, keys[..i]) + [FieldPart(keys[i], data[keys[i]])];
        Append(FieldPart(keys[i], data[keys[i]]));
      }
      assert keys[..|keys|] == keys;
    }
  }

  /** `handleSubmit`: the images first, in selection order, then every key of the product data
      in the object's key order `keys`; nothing is sent when the product data cannot be built. */
  method HandleSubmit(form: Form, images: seq<string>, keys: seq<string>) returns (body: Option<seq<Part>>)
    requires NoDup(keys) && forall k :: k in keys <==> k in form
    ensures ProductData(form).None? ==> body == None
    ensures ProductData(form).Some? ==> body == Some(ImageParts(images) + FieldParts(ProductData(form).value, keys))
  {
    var formDataToSend := new FormDataBuffer();
    formDataToSend.AppendImages(images);
    assert formDataToSend.parts == ImageParts(images);
    var productData := ProductData(form);
    if productData.None? {
      return None;
    }
    var data := productData.value;
    assert data.Keys == form.Keys;
    formDataToSend.AppendFields(data, keys);
    body := Some(formDataToSend.parts);
  }

  /** The files reach the server in selection order, and when there are some, the stored
      product's images are one `/uploads/` entry per selected image, in that order. */
  lemma ImagesReachServerInOrder(data: Form, images: seq<string>, keys: seq<string>,
                                 caller: Common.Caller, input: ProductModel.ProductInput)
    requires forall k :: k in keys ==> k in data
    ensures UploadedFiles(ImageParts(images) + FieldParts(data, keys)) == images
    ensures |images| > 0 ==>
      ProductController.CreationData(caller, input, images).images == Some(ProductController.UploadedImages(images))
  {
    UploadedFilesAppend(ImageParts(images), FieldParts(data, keys));
    UploadedImageParts(images);
    NoFilesInFields(data, keys);
  }
}
