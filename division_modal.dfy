/** The dialog that creates or renames a division. Its state changes are returned as
    new values. */
module DivisionModal {
  import opened Wrappers
  import opened Js
  import Browser
  import Http

  /** A division as the list delivers it. */
  datatype Division = Division(id: string, name: Option<string>)

  datatype DivisionForm = DivisionForm(name: string)

  /** The dialog's state: the form, whether a save is in flight, and the error shown. */
  datatype ModalState = ModalState(form: DivisionForm, loading: bool, error: string)

  /** The state the dialog is created with: an empty name, no save in flight, no error. */
  const Initial := ModalState(DivisionForm(""), false, "")

  /** The form effect on the `division` property: prefill the name (the error stays as it
      was), or reset the form and clear the error. */
  function SyncDivision(state: ModalState, division: Option<Division>): (r: ModalState)
    ensures division.Some? ==> r.form.name == Or(division.value.name, "") && r.error == state.error
    ensures division.None? ==> r.form.name == "" && r.error == ""
    ensures r.loading == state.loading
  {
    if division.Some? then state.(form := DivisionForm(Or(division.value.name, "")))
    else state.(form := DivisionForm(""), error := "")
  }

  /** Once no save is in flight, closing on no division returns the dialog to the state it
      was created with, whatever was typed or shown before. */
  lemma ResetRestoresInitial(state: ModalState)
    requires !state.loading
    ensures SyncDivision(state, None) == Initial
  {
  }

  /** The one input, `name`, takes the typed value; nothing else changes. */
  function HandleChange(state: ModalState, value: string): (r: ModalState)
    ensures r.form.name == value
    ensures r.loading == state.loading && r.error == state.error
  {
    state.(form := state.form.(name := value))
  }

  /** A JSON request: verb, address and body. */
  datatype JsonRequest = JsonRequest(verb: string, url: string, body: map<string, string>)

  /** Editing sends PUT to the division's address, creating sends POST to the
      collection; the body is the name alone. */
  function SubmitRequest(division: Option<Division>, form: DivisionForm): (r: JsonRequest)
    ensures r.body.Keys == {"name"} && r.body["name"] == form.name
    ensures division.Some? ==> r.verb == "PUT" && r.url == "/divisions/" + division.value.id
    ensures division.None? ==> r.verb == "POST" && r.url == "/divisions"
  {
    var body := map["name" := form.name];
    if division.Some? then JsonRequest("PUT", "/divisions/" + division.value.id, body)
    else JsonRequest("POST", "/divisions", body)
  }

  /** What `handleSubmit` does: the request it sends, the state it leaves, whether it
      called `onSubmitSuccess`, and the browser storage and address the client's
      interceptor leaves behind. */
  datatype Submitted = Submitted(
    request: JsonRequest,
    state: ModalState,
    succeeded: bool,
    storage: map<string, string>,
    location: string)

  /** Saving the form against the browser's `storage` and `location`; a 401 reply ends
      the session as the client's interceptor does. */
  function HandleSubmit(
    state: ModalState,
    division: Option<Division>,
    reply: Http.Reply<Option<Http.StatusBody>>,
    storage: map<string, string>,
    location: string): (r: Submitted)
    ensures r.request == SubmitRequest(division, state.form)
    ensures r.succeeded <==> Http.SaveError(reply).None?
    ensures r.state.form == state.form && !r.state.loading
    ensures r.state.error == if r.succeeded then "" else Http.SaveError(reply).value
    ensures reply.Err? && Http.Unauthorized(reply.error) ==>
      r.storage == storage - {Browser.TokenKey, Browser.UserKey} && r.location == "/login"
    ensures !(reply.Err? && Http.Unauthorized(reply.error)) ==> r.storage == storage && r.location == location
  {
    var failure := Http.SaveError(reply);
    Submitted(
      SubmitRequest(division, state.form),
      state.(loading := false, error := if failure.None? then "" else failure.value),
      failure.None?,
      Http.StorageAfter(storage, Http.ErrorOf(reply)),
      Http.LocationAfter(location, Http.ErrorOf(reply)))
  }

  /** Opening an existing division and saving without typing writes its current name back. */
  lemma SaveUnchangedKeepsName(
    state: ModalState, d: Division, reply: Http.Reply<Option<Http.StatusBody>>, storage: map<string, string>, location: string)
    ensures var r := HandleSubmit(SyncDivision(state, Some(d)), Some(d), reply, storage, location).request;
      r.verb == "PUT" && r.body == map["name" := Or(d.name, "")]
  {
  }
}
