/** React form state as the pages keep it: a JavaScript object of named values, one level of
    nesting, and the shared `handleChange` that writes `name` or `parent.child`. */
module Forms {
  import opened Common
  import opened Text

  datatype FormValue =
    | Text(s: string)
    | Flag(b: bool)
    | Num(n: int)
    | Ref(id: Id)
    | Items(xs: seq<string>)
    | Group(fields: map<string, FormValue>)

  type Form = map<string, FormValue>

  /** The object spread `{...form[parent]}`: the nested fields of a group; any other value, or a
      missing one, spreads no fields. */
  function Fields(form: Form, parent: string): map<string, FormValue> {
    if parent in form && form[parent].Group? then form[parent].fields else map[]
  }

  /** `handleChange`: a name with a dot writes the child field of the parent named before the
      first dot (the part after a second dot is ignored); any other name writes itself. */
  function SetField(form: Form, name: string, v: FormValue): Form {
    if '.' in name then
      var parts := Split(name, '.');
      form[parts[0] := Group(Fields(form, parts[0])[parts[1] := v])]
    else form[name := v]
  }

  /** A plain name replaces that field alone. A dotted name replaces the one field inside its
      parent group and leaves the parent's other fields and every other field as they were. */
  lemma SetFieldSpec(form: Form, name: string, v: FormValue, other: string)
    ensures '.' !in name ==> SetField(form, name, v) == form[name := v]
    ensures '.' in name ==>
      var parent := Split(name, '.')[0];
      var child := Split(name, '.')[1];
      && parent in SetField(form, name, v)
      && SetField(form, name, v)[parent] == Group(Fields(form, parent)[child := v])
      && (other != parent && other in form ==> other in SetField(form, name, v) && SetField(form, name, v)[other] == form[other])
      && (Fields(form, parent).Keys + {child} == Fields(SetField(form, name, v), parent).Keys)
  {
  }

  /** `parent.child` with a separator-free parent and child addresses exactly that child. */
  lemma DottedName(parent: string, child: string, form: Form, v: FormValue)
    requires '.' !in parent && '.' !in child
    ensures SetField(form, parent + "." + child, v) == form[parent := Group(Fields(form, parent)[child := v])]
  {
    SplitAfter(parent, '.', child);
    assert parent + "." + child == parent + ['.'] + child;
    assert '.' in parent + "." + child by {
      assert (parent + "." + child)[|parent|] == '.';
    }
  }

  /** The target of a form control as `handleChange` reads it. */
  datatype Control = Control(name: string, value: string, isCheckbox: bool, checked: bool)

  /** A checkbox contributes `checked`, any other control `value`. */
  function ControlValue(c: Control): (v: FormValue)
    ensures c.isCheckbox <==> v.Flag?
    ensures c.isCheckbox ==> v == Flag(c.checked)
    ensures !c.isCheckbox ==> v == Text(c.value)
  {
    if c.isCheckbox then Flag(c.checked) else Text(c.value)
  }
}
