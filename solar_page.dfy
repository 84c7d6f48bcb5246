/** The solar-system list page: the fetched list of systems, the create form with its
    validator, and the confirm-then-delete flow with its two modals. */
module SolarPage {
  import opened Wrappers
  import opened Text
  import Collection
  import Assets

  /** A solar system as the backend returns it. */
  datatype SolarSystem = SolarSystem(
    id: int,
    name: string,
    powerKw: Option<real>,
    efficiency: Option<real>,
    status: Option<string>)

  /** The create form. Numeric inputs hold the parsed number, or `None` when empty. */
  datatype CreateForm = CreateForm(
    name: string,
    powerKw: Option<real>,
    efficiency: Option<real>,
    status: string)

  /** The body of the create request. */
  datatype CreatePayload = CreatePayload(
    name: string,
    powerKw: real,
    efficiency: Option<real>,
    status: string)

  datatype MessageKind = ErrorMessage | SuccessMessage
  datatype ConfirmModal = ConfirmModal(open: bool, id: Option<int>)
  datatype MessageModal = MessageModal(open: bool, kind: MessageKind, message: string)

  /** The form fields a message can be attached to: `name`, `power_kw`, `efficiency`. */
  datatype Field = Name | PowerKw | Efficiency

  /** A map from field to message; an absent key means the field is valid. */
  type Errors = map<Field, string>

  const NameRequired: string := "Название обязательно"
  const PowerPositive: string := "Мощность должна быть > 0"
  const EfficiencyRange: string := "КПД от 0 до 100"
  const LoadFailed: string := "Не удалось загрузить системы"
  const Created: string := "Система успешно создана!"
  const CreateFailed: string := "Ошибка при создании системы"
  const Deleted: string := "Система удалена"
  const DeleteFailed: string := "Ошибка при удалении системы"

  function EmptyForm(): CreateForm
  {
    CreateForm("", None, None, Assets.ActiveStatus)
  }

  function ClosedConfirm(): ConfirmModal
  {
    ConfirmModal(false, None)
  }

  function ClosedMessage(): MessageModal
  {
    MessageModal(false, ErrorMessage, "")
  }

  /** The power field is rejected when it is empty or not positive. */
  predicate PowerInvalid(p: Option<real>)
  {
    p.None? || p.value <= 0.0
  }

  /** The efficiency field is rejected only when it is filled in and outside [0, 100]. */
  predicate EfficiencyInvalid(e: Option<real>)
  {
    e.Some? && (e.value < 0.0 || e.value > 100.0)
  }

  /** Whether the form breaks the rule of field `k`. */
  predicate Violates(f: CreateForm, k: Field)
  {
    match k
    case Name => Trim(f.name) == []
    case PowerKw => PowerInvalid(f.powerKw)
    case Efficiency => EfficiencyInvalid(f.efficiency)
  }

  function Message(k: Field): string
  {
    match k
    case Name => NameRequired
    case PowerKw => PowerPositive
    case Efficiency => EfficiencyRange
  }

  /** `validateCreateForm`, without the `setCreateErrors` side effect: one entry per
      violated rule, each with its fixed message, and nothing else. */
  function ValidateCreateForm(f: CreateForm): (errors: Errors)
    ensures Name in errors <==> Blank(f.name)
    ensures PowerKw in errors <==> PowerInvalid(f.powerKw)
    ensures Efficiency in errors <==> EfficiencyInvalid(f.efficiency)
    ensures Name in errors ==> errors[Name] == NameRequired
    ensures PowerKw in errors ==> errors[PowerKw] == PowerPositive
    ensures Efficiency in errors ==> errors[Efficiency] == EfficiencyRange
  {
    TrimEmptyIffBlank(f.name);
    var errors := map k: Field | Violates(f, k) :: Message(k);
    assert forall k: Field :: k in errors <==> Violates(f, k);
    errors
  }

  /** The validator accepts (`Object.keys(errors).length === 0`) exactly the forms with
      a non-blank name, a positive power and, when given, an efficiency in [0, 100]. */
  lemma ValidIff(f: CreateForm)
    ensures |ValidateCreateForm(f)| == 0
        <==> !Blank(f.name) && !PowerInvalid(f.powerKw) && !EfficiencyInvalid(f.efficiency)
  {
    var e := ValidateCreateForm(f);
    if !Blank(f.name) && !PowerInvalid(f.powerKw) && !EfficiencyInvalid(f.efficiency) {
      assert e.Keys == {};
    } else {
      assert Name in e || PowerKw in e || Efficiency in e;
    }
  }

  function SystemKey(s: SolarSystem): Option<int>
  {
    Some(s.id)
  }

  /** The component state of the page. */
  class SolarListPage {
    var systems: seq<SolarSystem>
    var loading: bool
    var error: string
    var showCreateForm: bool
    var createForm: CreateForm
    var createErrors: Errors
    var confirmModal: ConfirmModal
    var messageModal: MessageModal

    /** The confirm modal is open exactly while it holds an id, and the message modal
        is open exactly while it holds a message. */
    ghost predicate Valid()
      reads this
    {
      && (confirmModal.open <==> confirmModal.id.Some?)
      && (messageModal.open <==> messageModal.message != "")
    }

    /** The `useState` initial values. */
    constructor ()
      ensures Valid()
      ensures systems == [] && loading && error == "" && !showCreateForm
      ensures createForm == EmptyForm() && createErrors == map[]
      ensures confirmModal == ClosedConfirm() && messageModal == ClosedMessage()
    {
      systems := [];
      loading := true;
      error := "";
      showCreateForm := false;
      createForm := EmptyForm();
      createErrors := map[];
      confirmModal := ClosedConfirm();
      messageModal := ClosedMessage();
    }

    /** `fetchSystems`: the response replaces the list; a failure keeps the list and
        sets the error text; either way loading ends. */
    method FetchSystems(response: Outcome<seq<SolarSystem>>)
      modifies this`systems, this`loading, this`error
      ensures !loading
      ensures response.Success? ==> systems == response.data && error == old(error)
      ensures response.Failure? ==> systems == old(systems) && error == LoadFailed
    {
      match response {
        case Success(data) => systems := data;
        case Failure(_) => error := LoadFailed;
      }
      loading := false;
    }

    /** `handleCreateSystem`. The returned request is the POST body, `None` when
        validation stopped the submission before any network call. */
    method CreateSystem(response: Outcome<SolarSystem>) returns (request: Option<CreatePayload>)
      requires Valid()
      modifies this`createErrors, this`systems, this`showCreateForm, this`createForm, this`messageModal
      ensures Valid()
      ensures createErrors == ValidateCreateForm(old(createForm))
      ensures request.Some? <==> |createErrors| == 0
      ensures request.Some? ==> request.value == CreatePayload(
                old(createForm).name, old(createForm).powerKw.value,
                old(createForm).efficiency, old(createForm).status)
      ensures request.None? ==>
                systems == old(systems) && showCreateForm == old(showCreateForm)
                && createForm == old(createForm) && messageModal == old(messageModal)
      ensures request.Some? ==> CreateResponseApplied(response, old(systems), old(showCreateForm), old(createForm))
    {
      var f := createForm;
      createErrors := ValidateCreateForm(f);
      if |createErrors| != 0 {
        return None;
      }
      request := Some(CreatePayload(f.name, f.powerKw.value, f.efficiency, f.status));
      ApplyCreated(response);
    }

    /** The state after the POST answered: success appends the created system, closes
        and resets the form and reports success; failure only reports the error. */
    ghost predicate CreateResponseApplied(response: Outcome<SolarSystem>, systems0: seq<SolarSystem>,
                                          showCreateForm0: bool, createForm0: CreateForm)
      reads this
    {
      match response
      case Success(created) =>
        && systems == systems0 + [created]
        && !showCreateForm && createForm == EmptyForm()
        && messageModal == MessageModal(true, SuccessMessage, Created)
      case Failure(_) =>
        && systems == systems0 && showCreateForm == showCreateForm0 && createForm == createForm0
        && messageModal == MessageModal(true, ErrorMessage, CreateFailed)
    }

    /** The `try` block after `axios.post` and its `catch`. */
    method ApplyCreated(response: Outcome<SolarSystem>)
      requires Valid()
      modifies this`systems, this`showCreateForm, this`createForm, this`messageModal
      ensures Valid()
      ensures CreateResponseApplied(response, old(systems), old(showCreateForm), old(createForm))
    {
      match response {
        case Success(created) =>
          systems := systems + [created];
          showCreateForm := false;
          createForm := EmptyForm();
          messageModal := MessageModal(true, SuccessMessage, Created);
        case Failure(_) =>
          messageModal := MessageModal(true, ErrorMessage, CreateFailed);
      }
    }

    /** `handleDelete`: only opens the confirm modal for the id. */
    method RequestDelete(id: int)
      requires Valid()
      modifies this`confirmModal
      ensures Valid()
      ensures confirmModal == ConfirmModal(true, Some(id))
    {
      confirmModal := ConfirmModal(true, Some(id));
    }

    /** The modal's cancel button. */
    method CancelDelete()
      requires Valid()
      modifies this`confirmModal
      ensures Valid()
      ensures confirmModal == ClosedConfirm()
    {
      confirmModal := ClosedConfirm();
    }

    /** `confirmDelete`, the delete button of the confirm modal, which is only drawn
        while the modal is open and so holds an id: the DELETE goes to that id; success
        drops every system with it and keeps the rest in order; the confirm modal
        closes either way. */
    method ConfirmDelete(response: Outcome<()>) returns (target: Option<int>)
      requires Valid() && confirmModal.open
      modifies this`systems, this`messageModal, this`confirmModal
      ensures Valid()
      ensures target == old(confirmModal.id) && target.Some?
      ensures confirmModal == ClosedConfirm()
      ensures response.Success? ==>
                && systems == Collection.RemoveById(old(systems), target, SystemKey)
                && messageModal == MessageModal(true, SuccessMessage, Deleted)
      ensures response.Failure? ==>
                && systems == old(systems)
                && messageModal == MessageModal(true, ErrorMessage, DeleteFailed)
    {
      target := confirmModal.id;
      match response {
        case Success(_) =>
          systems := Collection.RemoveById(systems, target, SystemKey);
          messageModal := MessageModal(true, SuccessMessage, Deleted);
        case Failure(_) =>
          messageModal := MessageModal(true, ErrorMessage, DeleteFailed);
      }
      confirmModal := ClosedConfirm();
    }

    /** The message modal's OK button. */
    method CloseMessage()
      requires Valid()
      modifies this`messageModal
      ensures Valid()
      ensures messageModal == ClosedMessage()
    {
      messageModal := ClosedMessage();
    }

    /** The header button that shows or hides the create form. */
    method ToggleCreateForm()
      modifies this`showCreateForm
      ensures showCreateForm == !old(showCreateForm)
    {
      showCreateForm := !showCreateForm;
    }
  }

  /** After a confirmed delete of `id` succeeds, no system with that id is left, every
      other system is still there, and their relative order is the old one. */
  lemma DeleteRemovesExactlyId(systems: seq<SolarSystem>, id: int, before: seq<SolarSystem>, after: seq<SolarSystem>)
    requires systems == before + after
    ensures forall s :: s in Collection.RemoveById(systems, Some(id), SystemKey) ==> s.id != id
    ensures forall s :: s in systems && s.id != id ==> s in Collection.RemoveById(systems, Some(id), SystemKey)
    ensures Collection.RemoveById(systems, Some(id), SystemKey)
         == Collection.RemoveById(before, Some(id), SystemKey) + Collection.RemoveById(after, Some(id), SystemKey)
  {
    Collection.RemoveByIdConcat(before, after, Some(id), SystemKey);
    var r := Collection.RemoveById(systems, Some(id), SystemKey);
    forall s | s in r ensures s.id != id {
      var i :| 0 <= i < |r| && r[i] == s;
    }
    forall s | s in systems && s.id != id ensures s in r {
      var i :| 0 <= i < |systems| && systems[i] == s;
    }
  }
}
