/**
 The contacts page: the mount-time token guard, the list load, the phone
 field's keystroke handler, and the submit handler with its two-stage phone
 check followed by the create/update decision.

 Network calls are not performed: each call the page makes is appended to
 `requests`, and its reply is a parameter of the method that awaits it.
 */
module Contacts {
  import opened Browser
  import Phone
  import Api

  const LoginRoute := "/login"

  const LengthMessage := "Telefone deve conter 11 dígitos (DDD + número). Ex: (38) 999753779"
  const ShapeMessage := "Número inválido. Use DDD + número móvel (ex.: 38 9XXXXXXXX)"
  const MissingTokenMessage := "Token não encontrado"
  const SaveFallbackMessage := "Erro ao salvar contato"

  datatype Group = Familia | Trabalho | Amigos | Outros

  /** A contact as the form edits it; `id` is absent until the server assigns one. */
  datatype Contact = Contact(
    id: Option<int>,
    nome: string,
    telefone: string,
    email: string,
    grupo: Group,
    isFavorito: bool,
    notas: string,
    historicoChamadas: string)

  /** The blank form of "new contact" and of the reset after a successful save. */
  const BlankForm := Contact(None, "", "", "", Outros, false, "", "")

  /** A call to the contacts API, with the `Authorization` header it carries. */
  datatype Request =
    | ListContacts(authorization: string, params: seq<(string, string)>)
    | CreateContact(authorization: string, contact: Contact)
    | UpdateContact(authorization: string, contactId: int, contact: Contact)

  /** How an awaited call ended: its data, or the message of the error it threw. */
  datatype Reply<T> = Ok(value: T) | Failed(message: string)

  /** What a submit leads to. */
  datatype SubmitOutcome = LengthError | ShapeError | MissingToken | Update(contactId: int) | Create

  /** `editingContato?.id` is truthy: a contact is being edited and has a non-zero id. */
  predicate HasEditingId(editing: Option<Contact>)
    ensures HasEditingId(editing) <==> editing.Some? && editing.value.id.Some? && editing.value.id.value != 0
  {
    editing.Some? && TruthyNumber(editing.value.id)
  }

  /**
   The decision `handleSubmit` takes for a phone value, the stored token and
   the contact being edited. The length error wins over everything; the
   shape error means 11 digits whose third is not 9; past validation a
   missing or empty token stops the save; otherwise a truthy id updates that
   contact and anything else (no contact, no id, id 0) creates one.
   */
  function SubmitDecision(telefone: string, storedToken: Option<string>, editing: Option<Contact>): (r: SubmitOutcome)
    ensures r == LengthError <==> |Phone.Digits(telefone)| != Phone.MaxDigits
    ensures r == ShapeError <==> |Phone.Digits(telefone)| == Phone.MaxDigits && Phone.Digits(telefone)[2] != '9'
    ensures r == MissingToken <==>
      |Phone.Digits(telefone)| == Phone.MaxDigits && Phone.Digits(telefone)[2] == '9' && !TruthyString(storedToken)
    ensures r.Update? <==>
      |Phone.Digits(telefone)| == Phone.MaxDigits && Phone.Digits(telefone)[2] == '9' && TruthyString(storedToken)
      && HasEditingId(editing)
    ensures r.Update? ==> r.contactId == editing.value.id.value
    ensures r == Create <==>
      |Phone.Digits(telefone)| == Phone.MaxDigits && Phone.Digits(telefone)[2] == '9' && TruthyString(storedToken)
      && !HasEditingId(editing)
  {
    match Phone.CheckPhone(telefone)
    case WrongLength => LengthError
    case WrongShape => ShapeError
    case Accepted(_) =>
      if !TruthyString(storedToken) then MissingToken
      else if HasEditingId(editing) then Update(editing.value.id.value)
      else Create
  }

  /** The message a submit that stops before any call leaves in `error`. */
  function RejectionMessage(outcome: SubmitOutcome): string
  {
    match outcome
    case LengthError => LengthMessage
    case ShapeError => ShapeMessage
    case _ => MissingTokenMessage
  }

  /** The save call a validated submit makes. */
  function SaveRequest(outcome: SubmitOutcome, token: string, form: Contact): Request
  {
    match outcome
    case Update(id) => UpdateContact(Api.Authorization(token), id, form)
    case _ => CreateContact(Api.Authorization(token), form)
  }

  /** `err.message || "Erro ao salvar contato"`. */
  function SaveErrorMessage(message: string): (r: string)
    ensures r != ""
    ensures message != "" ==> r == message
  {
    if message == "" then SaveFallbackMessage else message
  }

  /**
   `after` is `before` plus one list request authorised with `token` whose
   query string is the one `q` calls for.
   */
  ghost predicate IssuedList(before: seq<Request>, after: seq<Request>, token: string, q: Api.ListQuery)
  {
    && |after| == |before| + 1
    && after[..|before|] == before
    && after[|before|].ListContacts?
    && after[|before|].authorization == Api.Authorization(token)
    && Api.DescribesQuery(after[|before|].params, q)
  }

  /** While the inline warning is shown, submitting gives the length error, whatever else holds. */
  lemma {:induction false} SubmitLengthFirst(telefone: string, storedToken: Option<string>, editing: Option<Contact>)
    requires Phone.ShowsDigitWarning(telefone)
    ensures SubmitDecision(telefone, storedToken, editing) == LengthError
  {
  }

  /** The documented examples, whatever the token and the contact being edited. */
  lemma {:induction false} SubmitExamples(storedToken: Option<string>, editing: Option<Contact>)
    ensures SubmitDecision("1187654321", storedToken, editing) == LengthError
    ensures SubmitDecision("11887654321", storedToken, editing) == ShapeError
    ensures TruthyString(storedToken) && editing == None ==>
      SubmitDecision("(11) 98765-4321", storedToken, editing) == Create
  {
    Phone.CheckPhoneRejectsTenDigits();
    Phone.CheckPhoneRejectsLandlineShape();
    Phone.FormatPhoneExample("11987654321");
    Phone.FormatPhoneDigits("11987654321");
    Phone.DigitsOfAcceptedExample();
  }

  /**
   Whatever was typed, the value the mask leaves in the field passes the
   submit check exactly when the typed digits are at least 11 with a 9
   third. Masking never turns a valid number into a rejected one; beyond 11
   digits the first 11 are kept bare, with no warning shown, and are saved
   without punctuation when their third digit is 9.
   */
  lemma {:induction false} MaskedPhoneValidates(valor: string)
    ensures var d := Phone.Digits(valor);
      Phone.CheckPhone(Phone.FormatPhone(valor)).Accepted? <==> |d| >= Phone.MaxDigits && d[2] == '9'
  {
    Phone.FormatPhoneDigits(valor);
  }

  // ---------------------------------------------------------------------------
  // The page component

  class ContactsPage {
    /** The browser's `localStorage`, shared with the session guard. */
    const store: LocalStorage
    var contatos: seq<Contact>
    var isLoading: bool
    var error: string
    var showModal: bool
    var editing: Option<Contact>
    var search: string
    var grupoFiltro: string
    var formData: Contact
    /** The route `router.push` was sent to, if any. */
    var route: Option<string>
    /** Every API call issued so far, oldest first. */
    var requests: seq<Request>

    /** The `useState` initialisers. */
    constructor (store: LocalStorage)
      ensures this.store == store
      ensures contatos == [] && isLoading && error == "" && !showModal && editing == None
      ensures search == "" && grupoFiltro == Api.AllGroups && formData == BlankForm
      ensures route == None && requests == []
    {
      this.store := store;
      contatos := [];
      isLoading := true;
      error := "";
      showModal := false;
      editing := None;
      search := "";
      grupoFiltro := Api.AllGroups;
      formData := BlankForm;
      route := None;
      requests := [];
    }

    /** The arguments `carregarContatos` passes to `listarContatos`. */
    function Query(): (q: Api.ListQuery)
      reads this
      ensures Api.Wanted(q, "skip") == None && Api.Wanted(q, "limit") == None
      ensures Api.Wanted(q, "search") == (if search == "" then None else Some(search))
      ensures Api.Wanted(q, "grupo") ==
        (if grupoFiltro == "" || grupoFiltro == Api.AllGroups then None else Some(grupoFiltro))
    {
      Api.ListQuery(Some(search), None, None, Some(grupoFiltro))
    }

    /**
     `carregarContatos`: without a token it only records the error; with one
     it issues the list request and stores the contacts or the error message.
     Loading ends false either way.
     */
    method LoadContacts(listReply: Reply<seq<Contact>>)
      modifies this`isLoading, this`error, this`contatos, this`requests
      ensures !isLoading
      ensures !TruthyString(store.GetItem(TokenKey)) ==>
        error == MissingTokenMessage && requests == old(requests) && contatos == old(contatos)
      ensures TruthyString(store.GetItem(TokenKey)) ==>
        && IssuedList(old(requests), requests, store.GetItem(TokenKey).value, Query())
        && (listReply.Ok? ==> contatos == listReply.value && error == old(error))
        && (listReply.Failed? ==> contatos == old(contatos) && error == listReply.message)
    {
      isLoading := true;
      var token := store.GetItem(TokenKey);
      if !TruthyString(token) {
        error := MissingTokenMessage;
      } else {
        var params := Api.ListParams(Query());
        requests := requests + [ListContacts(Api.Authorization(token.value), params)];
        match listReply
        case Ok(data) => contatos := data;
        case Failed(message) => error := message;
      }
      isLoading := false;
    }

    /**
     The mount effect: with no token, redirect to the login page and issue
     no request at all; otherwise load the list.
     */
    method Mount(listReply: Reply<seq<Contact>>)
      modifies this`isLoading, this`error, this`contatos, this`requests, this`route
      ensures !TruthyString(store.GetItem(TokenKey)) ==>
        && route == Some(LoginRoute)
        && requests == old(requests)
        && isLoading == old(isLoading) && error == old(error) && contatos == old(contatos)
      ensures TruthyString(store.GetItem(TokenKey)) ==>
        && route == old(route)
        && !isLoading
        && IssuedList(old(requests), requests, store.GetItem(TokenKey).value, Query())
        && (listReply.Ok? ==> contatos == listReply.value && error == old(error))
        && (listReply.Failed? ==> contatos == old(contatos) && error == listReply.message)
    {
      var token := store.GetItem(TokenKey);
      if !TruthyString(token) {
        route := Some(LoginRoute);
        return;
      }
      LoadContacts(listReply);
    }

    /** `handleTelefoneChange`: the field holds the mask of what was typed. */
    method ChangeTelefone(valor: string)
      modifies this`formData
      ensures formData == old(formData).(telefone := Phone.FormatPhone(valor))
    {
      formData := formData.(telefone := Phone.FormatPhone(valor));
    }

    /** `handleEdit`: open the dialog on a copy of an existing contact. */
    method HandleEdit(contato: Contact)
      modifies this`editing, this`formData, this`error, this`showModal
      ensures editing == Some(contato) && formData == contato && error == "" && showModal
    {
      editing := Some(contato);
      formData := contato;
      error := "";
      showModal := true;
    }

    /** The "new contact" button: open the dialog on a blank form. */
    method OpenNew()
      modifies this`editing, this`formData, this`error, this`showModal
      ensures editing == None && formData == BlankForm && error == "" && showModal
    {
      editing := None;
      formData := BlankForm;
      error := "";
      showModal := true;
    }

    /** The dialog's cancel button: close it and forget the contact being edited; the form keeps its contents. */
    method CancelEdit()
      modifies this`showModal, this`editing
      ensures !showModal && editing == None
    {
      showModal := false;
      editing := None;
    }

    /**
     `handleSubmit`. It returns the decision it took, which is
     `SubmitDecision` of the form's phone, the stored token and the contact
     being edited. A rejected submit makes no call and changes only the error
     message. A validated one makes exactly one save call; if the save fails
     the form stays open with the error; if it succeeds the dialog closes,
     the form is reset and the list is reloaded.
     */
    method HandleSubmit(saveReply: Reply<Contact>, listReply: Reply<seq<Contact>>) returns (outcome: SubmitOutcome)
      modifies this`isLoading, this`error, this`contatos, this`requests, this`showModal, this`formData, this`editing
      ensures outcome == SubmitDecision(old(formData).telefone, store.GetItem(TokenKey), old(editing))
      ensures outcome.LengthError? || outcome.ShapeError? || outcome.MissingToken? ==>
        && error == RejectionMessage(outcome)
        && requests == old(requests)
        && formData == old(formData) && editing == old(editing) && showModal == old(showModal)
        && contatos == old(contatos) && isLoading == old(isLoading)
      ensures (outcome.Update? || outcome.Create?) && saveReply.Failed? ==>
        && error == SaveErrorMessage(saveReply.message)
        && requests == old(requests) + [SaveRequest(outcome, store.GetItem(TokenKey).value, old(formData))]
        && formData == old(formData) && editing == old(editing) && showModal == old(showModal)
        && contatos == old(contatos) && isLoading == old(isLoading)
      ensures (outcome.Update? || outcome.Create?) && saveReply.Ok? ==>
        && !showModal && formData == BlankForm && editing == None && !isLoading
        && IssuedList(old(requests) + [SaveRequest(outcome, store.GetItem(TokenKey).value, old(formData))],
                      requests, store.GetItem(TokenKey).value, Query())
        && (listReply.Ok? ==> contatos == listReply.value && error == "")
        && (listReply.Failed? ==> contatos == old(contatos) && error == listReply.message)
    {
      error := "";
      var apenasNumeros := Phone.Digits(formData.telefone);
      if |apenasNumeros| != Phone.MaxDigits {
        error := LengthMessage;
        return LengthError;
      }
      if !Phone.MobilePattern(apenasNumeros) {
        error := ShapeMessage;
        return ShapeError;
      }
      var token := store.GetItem(TokenKey);
      if !TruthyString(token) {
        error := MissingTokenMessage;
        return MissingToken;
      }
      if HasEditingId(editing) {
        outcome := Update(editing.value.id.value);
        requests := requests + [UpdateContact(Api.Authorization(token.value), editing.value.id.value, formData)];
      } else {
        outcome := Create;
        requests := requests + [CreateContact(Api.Authorization(token.value), formData)];
      }
      match saveReply
      case Failed(message) =>
        error := SaveErrorMessage(message);
      case Ok(_) =>
        showModal := false;
        formData := BlankForm;
        editing := None;
        LoadContacts(listReply);
    }
  }
}
