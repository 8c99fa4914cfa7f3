/** The dialog that creates or edits an employee and sends it as a multipart form. */
module EmployeeModal {
  import opened Wrappers
  import opened Js
  import Http

  datatype DivisionRef = DivisionRef(id: Option<string>)

  /** An employee as the list delivers it. */
  datatype Employee = Employee(
    id: string,
    name: Option<string>,
    phone: Option<string>,
    position: Option<string>,
    image: Option<string>,
    division: Option<DivisionRef>)

  /** A file picked in the image input. */
  datatype ImageFile = ImageFile(name: string)

  datatype EmployeeForm = EmployeeForm(name: string, phone: string, division: string, position: string, image: Option<ImageFile>)

  /** The text inputs, by their `name` attribute. */
  datatype Field = NameField | PhoneField | DivisionField | PositionField

  /** A multipart entry: text, or the picked file. */
  datatype Part = Text(text: string) | Blob(file: ImageFile)

  /** The request `handleSubmit` sends; it is always a POST. */
  datatype MultipartRequest = MultipartRequest(url: string, body: seq<(string, Part)>)

  const EmptyForm := EmployeeForm("", "", "", "", None)

  /** The form filled from an employee: missing values become empty, the division is its
      id, and no new image is chosen. */
  function PrefillForm(e: Employee): (r: EmployeeForm)
    ensures r.name == Or(e.name, "") && r.phone == Or(e.phone, "") && r.position == Or(e.position, "")
    ensures r.division == (if e.division.Some? then Or(e.division.value.id, "") else "")
    ensures r.image == None
  {
    EmployeeForm(
      Or(e.name, ""),
      Or(e.phone, ""),
      if e.division.Some? then Or(e.division.value.id, "") else "",
      Or(e.position, ""),
      None)
  }

  function FieldValue(form: EmployeeForm, field: Field): string {
    match field
    case NameField => form.name
    case PhoneField => form.phone
    case DivisionField => form.division
    case PositionField => form.position
  }

  /** `{ ...prev, [name]: value }`: the named input takes the value, nothing else moves. */
  function WithField(form: EmployeeForm, field: Field, value: string): (r: EmployeeForm)
    ensures FieldValue(r, field) == value
    ensures forall f :: f != field ==> FieldValue(r, f) == FieldValue(form, f)
    ensures r.image == form.image
  {
    match field
    case NameField => form.(name := value)
    case PhoneField => form.(phone := value)
    case DivisionField => form.(division := value)
    case PositionField => form.(position := value)
  }

  /** The multipart body: the four text fields in order, then the image when one is chosen,
      then the `_method` override when an existing employee is edited. */
  function MultipartBody(form: EmployeeForm, editing: bool): (r: seq<(string, Part)>)
    ensures |r| == 4 + (if form.image.Some? then 1 else 0) + (if editing then 1 else 0)
    ensures r[..4] == [("name", Text(form.name)), ("phone", Text(form.phone)),
                       ("division", Text(form.division)), ("position", Text(form.position))]
    ensures (exists i :: 0 <= i < |r| && r[i].0 == "image") <==> form.image.Some?
    ensures form.image.Some? ==> r[4] == ("image", Blob(form.image.value))
    ensures (exists i :: 0 <= i < |r| && r[i].0 == "_method") <==> editing
    ensures editing ==> r[|r| - 1] == ("_method", Text("PUT"))
  {
    var text := [("name", Text(form.name)), ("phone", Text(form.phone)),
                 ("division", Text(form.division)), ("position", Text(form.position))];
    var withImage := if form.image.Some? then text + [("image", Blob(form.image.value))] else text;
    var r := if editing then withImage + [("_method", Text("PUT"))] else withImage;
    assert forall i :: 0 <= i < |r| && r[i].0 == "image" ==> i == 4 && form.image.Some?;
    assert forall i :: 0 <= i < |r| && r[i].0 == "_method" ==> i == |r| - 1 && editing;
    assert form.image.Some? ==> r[4].0 == "image";
    assert editing ==> r[|r| - 1].0 == "_method";
    r
  }

  /** Edits go to the employee's own address, new employees to the collection. */
  function SubmitUrl(employee: Option<Employee>): (r: string)
    ensures employee.None? ==> r == "/employees"
    ensures employee.Some? ==> r == "/employees/" + employee.value.id
  {
    if employee.Some? then "/employees/" + employee.value.id else "/employees"
  }

  class EmployeeModal {
    const api: Http.ApiClient
    var formData: EmployeeForm
    var preview: string
    var loading: bool
    var error: string

    constructor (api: Http.ApiClient)
      ensures this.api == api
      ensures formData == EmptyForm && preview == "" && !loading && error == ""
    {
      this.api := api;
      formData := EmptyForm;
      preview := "";
      loading := false;
      error := "";
    }

    /** The form effect on the `employee` property: prefill from it, or reset. */
    method SyncEmployee(employee: Option<Employee>)
      modifies this`formData, this`preview, this`error
      ensures employee.Some? ==> formData == PrefillForm(employee.value) && preview == Or(employee.value.image, "") && error == old(error)
      ensures employee.None? ==> formData == EmptyForm && preview == "" && error == ""
    {
      if employee.Some? {
        formData := PrefillForm(employee.value);
        preview := Or(employee.value.image, "");
      } else {
        ResetForm();
      }
    }

    method ResetForm()
      modifies this`formData, this`preview, this`error
      ensures formData == EmptyForm && preview == "" && error == ""
    {
      formData := EmptyForm;
      preview := "";
      error := "";
    }

    method HandleChange(field: Field, value: string)
      modifies this`formData
      ensures formData == WithField(old(formData), field, value)
    {
      formData := WithField(formData, field, value);
    }

    /** A picked file becomes the form's image; cancelling the picker changes nothing. */
    method HandleFileChange(file: Option<ImageFile>)
      modifies this`formData
      ensures formData == if file.Some? then old(formData).(image := file) else old(formData)
    {
      if file.Some? {
        formData := formData.(image := file);
      }
    }

    /** Builds the multipart body by appending entry after entry, sends it, and takes in
        the reply (after the client's interceptor): `succeeded` is the call to
        `onSubmitSuccess`; otherwise `error` shows why; `loading` ends false either way. */
    method HandleSubmit(employee: Option<Employee>, reply: Http.Reply<Option<Http.StatusBody>>)
      returns (request: MultipartRequest, succeeded: bool)
      modifies this`error, this`loading, api.window`storage, api.window`location
      ensures request == MultipartRequest(SubmitUrl(employee), MultipartBody(formData, employee.Some?))
      ensures succeeded <==> Http.SaveError(reply).None?
      ensures error == (if succeeded then "" else Http.SaveError(reply).value)
      ensures !loading
      ensures api.window.storage == Http.StorageAfter(old(api.window.storage), Http.ErrorOf(reply))
      ensures api.window.location == Http.LocationAfter(old(api.window.location), Http.ErrorOf(reply))
    {
      error := "";
      loading := true;
      var data: seq<(string, Part)> := [];
      data := data + [("name", Text(formData.name))];
      data := data + [("phone", Text(formData.phone))];
      data := data + [("division", Text(formData.division))];
      data := data + [("position", Text(formData.position))];
      if formData.image.Some? {
        data := data + [("image", Blob(formData.image.value))];
      }
      if employee.Some? {
        data := data + [("_method", Text("PUT"))];
        request := MultipartRequest("/employees/" + employee.value.id, data);
      } else {
        request := MultipartRequest("/employees", data);
      }
      var received := api.Receive(reply);
      var failure := Http.SaveError(received);
      succeeded := failure.None?;
      if !succeeded {
        error := failure.value;
      }
      loading := false;
    }
  }
}
