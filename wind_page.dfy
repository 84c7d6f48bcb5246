/** The wind-turbine list page: fetched turbines, one form used both to add a turbine
    and to edit one, the confirm-then-delete flow, and the total active power. */
module WindPage {
  import opened Wrappers
  import opened Text
  import Collection
  import Assets

  /** A wind turbine as the backend returns it. */
  datatype WindTurbine = WindTurbine(
    id: int,
    name: string,
    power: Option<real>,
    location: Option<string>,
    status: string,
    createdAt: int)

  /** The form; `id` is set while an existing turbine is being edited. */
  datatype TurbineForm = TurbineForm(
    id: Option<int>,
    name: string,
    power: Option<real>,
    location: string,
    status: string)

  /** The body of the POST or PUT request. */
  datatype TurbinePayload = TurbinePayload(
    name: string,
    power: real,
    location: Option<string>,
    status: string)

  datatype TurbineRequest =
    | Create(payload: TurbinePayload)
    | Update(id: int, payload: TurbinePayload)

  /** The form fields a message can be attached to: `name` and `power`. */
  datatype Field = Name | Power

  type Errors = map<Field, string>

  const NameRequired: string := "Название обязательно"
  const PowerPositive: string := "Мощность должна быть больше 0"
  const LoadFailed: string := "Не удалось загрузить ветрогенераторы"

  function EmptyForm(): TurbineForm
  {
    TurbineForm(None, "", None, "", Assets.ActiveStatus)
  }

  function TurbineId(t: WindTurbine): int
  {
    t.id
  }

  function TurbineStatus(t: WindTurbine): string
  {
    t.status
  }

  function TurbinePower(t: WindTurbine): Option<real>
  {
    t.power
  }

  /** `formData.id` is truthy: present and not 0. */
  predicate IdTruthy(id: Option<int>)
  {
    id.Some? && id.value != 0
  }

  /** Whether the form breaks the rule of field `k`. */
  predicate Violates(f: TurbineForm, k: Field)
  {
    match k
    case Name => Trim(f.name) == []
    case Power => f.power.None? || f.power.value <= 0.0
  }

  function Message(k: Field): string
  {
    match k
    case Name => NameRequired
    case Power => PowerPositive
  }

  /** `validateForm`, without the `setFormErrors` side effect. */
  function ValidateForm(f: TurbineForm): (errors: Errors)
    ensures Name in errors <==> Blank(f.name)
    ensures Power in errors <==> (f.power.None? || f.power.value <= 0.0)
    ensures Name in errors ==> errors[Name] == NameRequired
    ensures Power in errors ==> errors[Power] == PowerPositive
  {
    TrimEmptyIffBlank(f.name);
    var errors := map k: Field | Violates(f, k) :: Message(k);
    assert forall k: Field :: k in errors <==> Violates(f, k);
    errors
  }

  /** The form is accepted exactly when neither rule is violated. */
  lemma ValidIff(f: TurbineForm)
    ensures |ValidateForm(f)| == 0 <==> !Blank(f.name) && f.power.Some? && f.power.value > 0.0
  {
    var e := ValidateForm(f);
    if !Blank(f.name) && f.power.Some? && f.power.value > 0.0 {
      assert e.Keys == {};
    } else {
      assert Name in e || Power in e;
    }
  }

  /** `turbineData`: the name is sent trimmed, and the location trimmed or `null` when
      nothing but white space was entered. */
  function Payload(f: TurbineForm): (p: TurbinePayload)
    requires f.power.Some?
    ensures p.name == Trim(f.name)
    ensures p.location.None? <==> Blank(f.location)
    ensures p.location.Some? ==> p.location.value == Trim(f.location) && p.location.value != []
    ensures p.power == f.power.value && p.status == f.status
  {
    TrimEmptyIffBlank(f.location);
    var location := Trim(f.location);
    TurbinePayload(Trim(f.name), f.power.value, if location == [] then None else Some(location), f.status)
  }

  /** The request `handleSubmit` sends for a valid form: a PUT by id while editing a
      turbine whose id is truthy, a POST otherwise. */
  function RequestFor(f: TurbineForm, isEditing: bool): (r: TurbineRequest)
    requires f.power.Some?
    ensures r.payload == Payload(f)
    ensures r.Update? <==> isEditing && IdTruthy(f.id)
    ensures r.Update? ==> r.id == f.id.value
  {
    if isEditing && IdTruthy(f.id) then Update(f.id.value, Payload(f)) else Create(Payload(f))
  }

  /** The list after the request succeeded with `saved` as the response body. */
  function AfterSave(turbines: seq<WindTurbine>, request: TurbineRequest, saved: WindTurbine): seq<WindTurbine>
  {
    match request
    case Update(id, _) => Collection.ReplaceById(turbines, id, saved, TurbineId)
    case Create(_) => turbines + [saved]
  }

  /** An update keeps the length and replaces exactly the entries with the edited id;
      a create appends exactly one turbine and keeps the earlier ones. */
  lemma AfterSaveShape(turbines: seq<WindTurbine>, request: TurbineRequest, saved: WindTurbine)
    ensures request.Update? ==> |AfterSave(turbines, request, saved)| == |turbines|
    ensures request.Update? ==> forall i :: 0 <= i < |turbines| ==>
              AfterSave(turbines, request, saved)[i] == if turbines[i].id == request.id then saved else turbines[i]
    ensures request.Create? ==> |AfterSave(turbines, request, saved)| == |turbines| + 1
    ensures request.Create? ==> AfterSave(turbines, request, saved)[..|turbines|] == turbines
    ensures request.Create? ==> AfterSave(turbines, request, saved)[|turbines|] == saved
  {
  }

  /** The card's total: the power of the active turbines, a missing power counting as 0. */
  function TotalActivePower(turbines: seq<WindTurbine>): real
  {
    Assets.TotalActivePower(turbines, TurbineStatus, TurbinePower)
  }

  /** Adding a turbine raises the total by its power when it is active and leaves the
      total unchanged when it is not. */
  lemma TotalActivePowerOfAdded(turbines: seq<WindTurbine>, t: WindTurbine)
    ensures t.status != Assets.ActiveStatus ==> TotalActivePower(turbines + [t]) == TotalActivePower(turbines)
    ensures t.status == Assets.ActiveStatus ==> TotalActivePower(turbines + [t]) == TotalActivePower(turbines) + OrZero(t.power)
  {
    Assets.TotalActivePowerAppend(turbines, t, TurbineStatus, TurbinePower);
  }

  /** The component state of the page. */
  class WindListPage {
    var turbines: seq<WindTurbine>
    var loading: bool
    var error: string
    var formData: TurbineForm
    var isEditing: bool
    var formErrors: Errors

    constructor ()
      ensures turbines == [] && loading && error == ""
      ensures formData == EmptyForm() && !isEditing && formErrors == map[]
    {
      turbines := [];
      loading := true;
      error := "";
      formData := EmptyForm();
      isEditing := false;
      formErrors := map[];
    }

    /** `fetchTurbines`. */
    method FetchTurbines(response: Outcome<seq<WindTurbine>>)
      modifies this`turbines, this`loading, this`error
      ensures !loading
      ensures response.Success? ==> turbines == response.data && error == old(error)
      ensures response.Failure? ==> turbines == old(turbines) && error == LoadFailed
    {
      match response {
        case Success(data) => turbines := data;
        case Failure(_) => error := LoadFailed;
      }
      loading := false;
    }

    /** `resetForm`. */
    method ResetForm()
      modifies this`formData, this`formErrors
      ensures formData == EmptyForm() && formErrors == map[]
    {
      formData := EmptyForm();
      formErrors := map[];
    }

    /** `handleCancel`: leave edit mode and reset the form. */
    method Cancel()
      modifies this`formData, this`formErrors, this`isEditing
      ensures formData == EmptyForm() && formErrors == map[] && !isEditing
    {
      isEditing := false;
      ResetForm();
    }

    /** `handleSubmit`. The returned request is `None` when validation stopped the
        submission before any network call. */
    method Submit(response: Outcome<WindTurbine>) returns (request: Option<TurbineRequest>)
      modifies this`formErrors, this`turbines, this`formData, this`isEditing
      ensures formErrors == ValidateForm(old(formData))
      ensures request.None? <==> |formErrors| != 0
      ensures request.None? ==> turbines == old(turbines) && formData == old(formData) && isEditing == old(isEditing)
      ensures request.Some? ==>
                && old(formData).power.Some?
                && request.value == RequestFor(old(formData), old(isEditing))
                && SaveApplied(request.value, response, old(turbines), old(formData), old(isEditing))
    {
      var f := formData;
      formErrors := ValidateForm(f);
      if |formErrors| != 0 {
        return None;
      }
      assert Power !in formErrors;
      var r := RequestFor(f, isEditing);
      request := Some(r);
      ApplySaved(r, response);
    }

    /** The state after the PUT or POST answered: success stores the saved turbine,
        resets the form and leaves edit mode; failure changes nothing. */
    ghost predicate SaveApplied(request: TurbineRequest, response: Outcome<WindTurbine>,
                                turbines0: seq<WindTurbine>, formData0: TurbineForm, isEditing0: bool)
      reads this
    {
      match response
      case Success(saved) =>
        turbines == AfterSave(turbines0, request, saved) && formData == EmptyForm() && !isEditing
      case Failure(_) =>
        turbines == turbines0 && formData == formData0 && isEditing == isEditing0
    }

    /** The `try` block after the request and its `catch`. */
    method ApplySaved(request: TurbineRequest, response: Outcome<WindTurbine>)
      modifies this`turbines, this`formData, this`formErrors, this`isEditing
      ensures SaveApplied(request, response, old(turbines), old(formData), old(isEditing))
      ensures response.Failure? ==> formErrors == old(formErrors)
      ensures response.Success? ==> formErrors == map[]
    {
      match response {
        case Success(saved) =>
          turbines := AfterSave(turbines, request, saved);
          ResetForm();
          isEditing := false;
        case Failure(_) =>
      }
    }

    /** `handleEdit`: copy the turbine into the form and enter edit mode. A turbine
        without a power makes `turbine.power.toString()` throw before any state is
        set, so nothing changes. */
    method Edit(t: WindTurbine)
      modifies this`formData, this`isEditing
      ensures t.power.None? ==> formData == old(formData) && isEditing == old(isEditing)
      ensures t.power.Some? ==> isEditing
      ensures t.power.Some? ==> formData == TurbineForm(
                Some(t.id), t.name, t.power,
                if t.location.Some? then t.location.value else "", t.status)
    {
      if t.power.None? {
        return;
      }
      var location := match t.location case Some(l) => l case None => "";
      formData := TurbineForm(Some(t.id), t.name, t.power, location, t.status);
      isEditing := true;
    }

    /** `handleDelete`: `confirmed` is the answer to the confirm prompt; declining
        sends nothing and changes nothing. Returns whether the DELETE was sent. */
    method Delete(id: int, confirmed: bool, response: Outcome<()>) returns (sent: bool)
      modifies this`turbines
      ensures sent == confirmed
      ensures sent && response.Success? ==> turbines == Collection.RemoveById(old(turbines), id, TurbineId)
      ensures !sent || response.Failure? ==> turbines == old(turbines)
    {
      sent := confirmed;
      if !confirmed {
        return;
      }
      if response.Success? {
        turbines := Collection.RemoveById(turbines, id, TurbineId);
      }
    }
  }
}
