/**
 * The assistant's conversation and action-confirmation state
 * (contexts/ChatContext.tsx). The language-model gateway is opaque: each
 * awaited call is split into the step that issues it and the step that
 * handles its reply, and the reply is a parameter of the second step.
 */
module Chat {
  import opened Types
  import opened Text
  import opened Database

  datatype Sender = UserSender | AiSender

  datatype ChatMessage = ChatMessage(sender: Sender, text: string)

  /** A gateway response: its function calls and its text (empty when absent). */
  datatype Response = Response(functionCalls: seq<FunctionCall>, text: string)

  /** What an awaited gateway call yields: a response, or a thrown error and its message. */
  datatype GatewayReply = Ok(response: Response) | Failure(message: string)

  /** Whether opening a gateway session succeeded, or the message of the error it threw. */
  datatype StartOutcome = Started | StartFailed(message: string)

  const REGISTER_ACTION: string := "registerStockMovement"

  const INITIAL_TEXT: string :=
    "Olá! Sou o Assistente Gestor One. Agora posso registrar entradas, saídas e consumos de estoque. "
    + "Tente dizer: \"registrar uma entrada de 50 parafusos com a nota fiscal 12345\" ou \"dar baixa em 5 martelos para o Jorge\"."

  const FALLBACK_TEXT: string := "Desculpe, não consegui processar sua solicitação no momento."
  const NO_SESSION_ERROR: string := "A sessão de chat não foi iniciada."
  const CANCELLED_TEXT: string := "Ação cancelada."
  const UNKNOWN_ACTION: string := "Ação desconhecida."
  const FAILURE_PREFIX: string := "Falha na execução: "
  const SEND_ERROR_PREFIX: string := "Erro: "
  const START_ERROR_PREFIX: string := "Não foi possível iniciar o assistente de IA. "
  const API_KEY_HINT: string :=
    "Verifique se a chave de API (VITE_API_KEY) está configurada corretamente no ambiente do Netlify."
  const CONNECTION_HINT: string := "Verifique sua conexão e tente novamente."

  function AiMessage(text: string): ChatMessage
  {
    ChatMessage(AiSender, text)
  }

  /** The chat error set when opening the session throws. */
  function StartErrorMessage(cause: string): (r: string)
    ensures StartsWith(r, START_ERROR_PREFIX)
    ensures Contains(cause, "API key") ==> r == START_ERROR_PREFIX + API_KEY_HINT
    ensures !Contains(cause, "API key") ==> r == START_ERROR_PREFIX + CONNECTION_HINT
  {
    START_ERROR_PREFIX + (if Contains(cause, "API key") then API_KEY_HINT else CONNECTION_HINT)
  }

  /**
   * The two hints differ, so the start error tells the user which kind of
   * failure occurred: two failures show the same message exactly when both
   * or neither mention the API key.
   */
  lemma StartErrorDistinguishes(a: string, b: string)
    ensures API_KEY_HINT != CONNECTION_HINT
    ensures StartErrorMessage(a) == StartErrorMessage(b) <==> (Contains(a, "API key") <==> Contains(b, "API key"))
  {
    assert |API_KEY_HINT| != |CONNECTION_HINT|;
    assert |START_ERROR_PREFIX + API_KEY_HINT| != |START_ERROR_PREFIX + CONNECTION_HINT|;
  }

  /** The part of the confirmation question that every proposal has. */
  function ConfirmationHead(args: ActionArgs): string
  {
    "Você deseja registrar a **" + MovementTypeName(args.kind) + "** de **" + IntToString(args.quantity)
    + "** unidade(s) de \"**" + args.materialName + "**\" para o colaborador \"**" + args.collaboratorName + "**\""
  }

  /** Whether the confirmation question names the invoice: only for an inflow with a non-empty invoice number. */
  predicate NamesInvoice(args: ActionArgs)
  {
    args.kind == Entrada && args.invoiceNumber != ""
  }

  /** The question shown for a proposed `registerStockMovement` call. */
  function ConfirmationText(args: ActionArgs): string
  {
    ConfirmationHead(args)
    + (if NamesInvoice(args) then ", associada à Nota Fiscal **" + args.invoiceNumber + "**" else "")
    + "?"
  }

  /**
   * The question always ends in `?`, and what follows the common head is the
   * invoice clause exactly when the invoice is named, and nothing else otherwise.
   */
  lemma ConfirmationInvoiceClause(args: ActionArgs)
    ensures var r, h := ConfirmationText(args), ConfirmationHead(args);
            && StartsWith(r, h) && r[|r| - 1] == '?'
            && (NamesInvoice(args) <==> |r| > |h| + 1)
            && (NamesInvoice(args) ==> r[|h|..] == ", associada à Nota Fiscal **" + args.invoiceNumber + "**?")
  {
    var r, h := ConfirmationText(args), ConfirmationHead(args);
    var clause := if NamesInvoice(args) then ", associada à Nota Fiscal **" + args.invoiceNumber + "**" else "";
    assert r == h + (clause + "?");
    assert r[..|h|] == h;
  }

  /** `materials.some(m => m.nome.toLowerCase() === name.toLowerCase())`. */
  predicate MaterialExists(ms: seq<Material>, name: string)
  {
    exists i :: 0 <= i < |ms| && EqualsIgnoreCase(ms[i].nome, name)
  }

  /** `collaborators.some(c => c.nome.toLowerCase() === name.toLowerCase())`. */
  predicate CollaboratorExists(cs: seq<Collaborator>, name: string)
  {
    exists j :: 0 <= j < |cs| && EqualsIgnoreCase(cs[j].nome, name)
  }

  /** The error `confirmAction` throws before touching the store, if any. */
  function ActionError(call: FunctionCall, ms: seq<Material>, cs: seq<Collaborator>): Option<string>
  {
    if call.name != REGISTER_ACTION then Some(UNKNOWN_ACTION)
    else if !MaterialExists(ms, call.args.materialName) then
      Some("Material \"" + call.args.materialName + "\" não encontrado.")
    else if !CollaboratorExists(cs, call.args.collaboratorName) then
      Some("Colaborador \"" + call.args.collaboratorName + "\" não encontrado.")
    else None
  }

  /** The movement `confirmAction` hands to `addMovement`: the arguments unchanged, dated today, with `invoiceNumber || ''`. */
  function MovementFromArgs(args: ActionArgs, today: Day): MovementInput
  {
    MovementInput(args.materialName, args.quantity, args.collaboratorName, today, Some(args.invoiceNumber))
  }

  /**
   * The validation of `confirmAction` agrees with the store's own name
   * resolution: an action passes exactly when it is a `registerStockMovement`
   * call whose movement `addMovement` records.
   */
  lemma ValidationAgreesWithStore(call: FunctionCall, ms: seq<Material>, cs: seq<Collaborator>, today: Day, newId: string)
    ensures ActionError(call, ms, cs).None? <==>
              call.name == REGISTER_ACTION &&
              ResolveMovement(ms, cs, MovementFromArgs(call.args, today), call.args.kind, newId).Recorded?
  {
    ResolveMovementSpec(ms, cs, MovementFromArgs(call.args, today), call.args.kind, newId);
  }

  /** The validation never looks at the quantity: zero and negative quantities pass like any other. */
  lemma ValidationIgnoresQuantity(call: FunctionCall, q: int, ms: seq<Material>, cs: seq<Collaborator>)
    ensures ActionError(call, ms, cs) == ActionError(call.(args := call.args.(quantity := q)), ms, cs)
  {
  }

  /** What `processResponse` appends to the conversation. */
  function ResponseMessages(resp: Response): seq<ChatMessage>
  {
    if |resp.functionCalls| > 0 then
      if resp.functionCalls[0].name == REGISTER_ACTION then [AiMessage(ConfirmationText(resp.functionCalls[0].args))] else []
    else if resp.text != "" then [AiMessage(resp.text)]
    else [AiMessage(FALLBACK_TEXT)]
  }

  /**
   * A reply without function calls adds exactly one message (its text, or the
   * apology when the text is empty); a reply with one adds at most one, the
   * confirmation question, and only for `registerStockMovement`.
   */
  lemma ResponseMessagesSpec(resp: Response)
    ensures |resp.functionCalls| == 0 ==> |ResponseMessages(resp)| == 1
    ensures |resp.functionCalls| > 0 ==> |ResponseMessages(resp)| == (if resp.functionCalls[0].name == REGISTER_ACTION then 1 else 0)
    ensures forall k :: 0 <= k < |ResponseMessages(resp)| ==> ResponseMessages(resp)[k].sender == AiSender
    ensures ResponseMessages(resp) != [] ==> ResponseMessages(resp)[0].text != ""
  {
    if |resp.functionCalls| > 0 && resp.functionCalls[0].name == REGISTER_ACTION {
      assert ConfirmationText(resp.functionCalls[0].args)[0] == 'V';
    }
  }

  class ChatSession {
    const store: Store
    var messages: seq<ChatMessage>
    var isLoading: bool
    var pendingAction: Option<PendingAction>
    var chatError: Option<string>
    var isInitialized: bool
    /** Whether a gateway session object is held (`chatSession !== null`). */
    var hasSession: bool

    /** A session is held exactly when the chat is initialised. */
    predicate Valid()
      reads this
    {
      isInitialized == hasSession
    }

    constructor (store: Store)
      ensures Valid()
      ensures this.store == store && messages == [] && !isLoading && pendingAction.None?
      ensures chatError.None? && !isInitialized && !hasSession
    {
      this.store := store;
      messages, isLoading, pendingAction, chatError := [], false, None, None;
      isInitialized, hasSession := false, false;
    }

    /** `initializeChat`; does nothing once initialised. */
    method InitializeChat(outcome: StartOutcome)
      requires Valid()
      modifies this
      ensures Valid()
      ensures old(isInitialized) ==> messages == old(messages) && chatError == old(chatError) && isInitialized
      ensures !old(isInitialized) && outcome.Started? ==>
                messages == [AiMessage(INITIAL_TEXT)] && chatError.None? && isInitialized
      ensures !old(isInitialized) && outcome.StartFailed? ==>
                messages == [] && chatError == Some(StartErrorMessage(outcome.message)) && !isInitialized
      ensures isLoading == old(isLoading) && pendingAction == old(pendingAction)
    {
      if isInitialized {
        return;
      }
      chatError := None;
      match outcome
      case Started =>
        hasSession := true;
        messages := [AiMessage(INITIAL_TEXT)];
        isInitialized := true;
      case StartFailed(cause) =>
        chatError := Some(StartErrorMessage(cause));
        messages := [];
    }

    /** `processResponse`: a function call becomes the pending action; otherwise the text is shown. */
    method ProcessResponse(resp: Response)
      modifies this
      ensures messages == old(messages) + ResponseMessages(resp)
      ensures |resp.functionCalls| > 0 ==> pendingAction == Some(PendingAction(resp.functionCalls[0], ""))
      ensures |resp.functionCalls| == 0 ==> pendingAction == old(pendingAction)
      ensures isLoading == old(isLoading) && chatError == old(chatError)
      ensures isInitialized == old(isInitialized) && hasSession == old(hasSession)
    {
      if |resp.functionCalls| > 0 {
        var call := resp.functionCalls[0];
        pendingAction := Some(PendingAction(call, ""));
        if call.name == REGISTER_ACTION {
          messages := messages + [AiMessage(ConfirmationText(call.args))];
        }
      } else if resp.text != "" {
        messages := messages + [AiMessage(resp.text)];
      } else {
        messages := messages + [AiMessage(FALLBACK_TEXT)];
      }
    }

    /**
     * `sendMessage` up to the gateway call: ignores blank input and calls
     * made while loading, shows the user's message, and without a session
     * sets the chat error instead of calling the gateway. A pending action
     * does not block it. Returns whether the gateway was called.
     */
    method SendStart(input: string) returns (requested: bool)
      modifies this
      ensures requested <==> !IsBlank(input) && !old(isLoading) && old(hasSession)
      ensures IsBlank(input) || old(isLoading) ==>
                messages == old(messages) && isLoading == old(isLoading) && chatError == old(chatError)
      ensures !IsBlank(input) && !old(isLoading) ==> messages == old(messages) + [ChatMessage(UserSender, input)]
      ensures !IsBlank(input) && !old(isLoading) && !old(hasSession) ==>
                chatError == Some(NO_SESSION_ERROR) && !isLoading
      ensures requested ==> isLoading && chatError == old(chatError)
      ensures pendingAction == old(pendingAction)
      ensures isInitialized == old(isInitialized) && hasSession == old(hasSession)
    {
      var blank := TrimIsEmpty(input);
      if blank || isLoading {
        return false;
      }
      messages := messages + [ChatMessage(UserSender, input)];
      if !hasSession {
        chatError := Some(NO_SESSION_ERROR);
        return false;
      }
      isLoading := true;
      requested := true;
    }

    /** `sendMessage` after the gateway call: shows the reply or the error, then stops loading. */
    method SendFinish(reply: GatewayReply)
      modifies this
      ensures reply.Ok? ==> messages == old(messages) + ResponseMessages(reply.response)
      ensures reply.Ok? && |reply.response.functionCalls| > 0 ==>
                pendingAction == Some(PendingAction(reply.response.functionCalls[0], ""))
      ensures reply.Failure? ==> messages == old(messages) + [AiMessage(SEND_ERROR_PREFIX + reply.message)]
      ensures (reply.Failure? || |reply.response.functionCalls| == 0) ==> pendingAction == old(pendingAction)
      ensures !isLoading
      ensures chatError == old(chatError) && isInitialized == old(isInitialized) && hasSession == old(hasSession)
    {
      match reply {
        case Ok(resp) =>
          ProcessResponse(resp);
        case Failure(msg) =>
          messages := messages + [AiMessage(SEND_ERROR_PREFIX + msg)];
      }
      isLoading := false;
    }

    /**
     * The synchronous part of `confirmAction` once a pending action and a
     * session exist: validate, then either report the failure and clear the
     * action, or record the movement and leave the finalising call in flight.
     */
    method ApplyPending(today: Day, newId: string) returns (awaiting: bool)
      requires pendingAction.Some?
      modifies this, store
      ensures var call := old(pendingAction).value.functionCall;
              var err := ActionError(call, old(store.materials), old(store.collaborators));
              && awaiting == err.None?
              && (err.Some? ==>
                    && messages == old(messages) + [AiMessage(FAILURE_PREFIX + err.value)]
                    && pendingAction.None? && !isLoading
                    && store.materials == old(store.materials) && store.movements == old(store.movements))
              && (err.None? ==>
                    && messages == old(messages) && pendingAction == old(pendingAction) && isLoading
                    && store.materials == StockAfter(old(store.materials), old(store.collaborators),
                                                     MovementFromArgs(call.args, today), call.args.kind, newId)
                    && store.movements == MovementsAfter(old(store.materials), old(store.collaborators), old(store.movements),
                                                         MovementFromArgs(call.args, today), call.args.kind, newId))
      ensures store.collaborators == old(store.collaborators)
      ensures chatError == old(chatError) && isInitialized == old(isInitialized) && hasSession == old(hasSession)
    {
      isLoading := true;
      var call := pendingAction.value.functionCall;
      var err := ActionError(call, store.materials, store.collaborators);
      if err.Some? {
        messages := messages + [AiMessage(FAILURE_PREFIX + err.value)];
        pendingAction := None;
        isLoading := false;
        return false;
      }
      store.AddMovement(MovementFromArgs(call.args, today), call.args.kind, newId);
      awaiting := true;
    }

    /**
     * `confirmAction` up to the finalising gateway call, as written: it does
     * nothing without a pending action or a session, and does not look at
     * `isLoading`. `today` and `newId` stand for the clock.
     */
    method ConfirmStart(today: Day, newId: string) returns (awaiting: bool)
      modifies this, store
      ensures old(pendingAction).None? || !old(hasSession) ==>
                && !awaiting && messages == old(messages) && pendingAction == old(pendingAction)
                && isLoading == old(isLoading)
                && store.materials == old(store.materials) && store.movements == old(store.movements)
      ensures old(pendingAction).Some? && old(hasSession) ==>
                var call := old(pendingAction).value.functionCall;
                var err := ActionError(call, old(store.materials), old(store.collaborators));
                && awaiting == err.None?
                && (err.Some? ==>
                      && messages == old(messages) + [AiMessage(FAILURE_PREFIX + err.value)]
                      && pendingAction.None? && !isLoading
                      && store.materials == old(store.materials) && store.movements == old(store.movements))
                && (err.None? ==>
                      && messages == old(messages) && pendingAction == old(pendingAction) && isLoading
                      && store.materials == StockAfter(old(store.materials), old(store.collaborators),
                                                       MovementFromArgs(call.args, today), call.args.kind, newId)
                      && store.movements == MovementsAfter(old(store.materials), old(store.collaborators), old(store.movements),
                                                           MovementFromArgs(call.args, today), call.args.kind, newId))
      ensures store.collaborators == old(store.collaborators)
      ensures chatError == old(chatError) && isInitialized == old(isInitialized) && hasSession == old(hasSession)
    {
      if pendingAction.None? || !hasSession {
        return false;
      }
      awaiting := ApplyPending(today, newId);
    }

    /** The corrected start: it also refuses while a request is in flight. */
    method ConfirmStartGuarded(today: Day, newId: string) returns (awaiting: bool)
      modifies this, store
      ensures old(pendingAction).None? || !old(hasSession) || old(isLoading) ==>
                && !awaiting && messages == old(messages) && pendingAction == old(pendingAction)
                && isLoading == old(isLoading)
                && store.materials == old(store.materials) && store.movements == old(store.movements)
      ensures old(pendingAction).Some? && old(hasSession) && !old(isLoading) ==>
                var call := old(pendingAction).value.functionCall;
                var err := ActionError(call, old(store.materials), old(store.collaborators));
                && awaiting == err.None?
                && (err.Some? ==>
                      && messages == old(messages) + [AiMessage(FAILURE_PREFIX + err.value)]
                      && pendingAction.None? && !isLoading
                      && store.materials == old(store.materials) && store.movements == old(store.movements))
                && (err.None? ==>
                      && messages == old(messages) && pendingAction == old(pendingAction) && isLoading
                      && store.materials == StockAfter(old(store.materials), old(store.collaborators),
                                                       MovementFromArgs(call.args, today), call.args.kind, newId)
                      && store.movements == MovementsAfter(old(store.materials), old(store.collaborators), old(store.movements),
                                                           MovementFromArgs(call.args, today), call.args.kind, newId))
      ensures store.collaborators == old(store.collaborators)
      ensures chatError == old(chatError) && isInitialized == old(isInitialized) && hasSession == old(hasSession)
    {
      if pendingAction.None? || !hasSession || isLoading {
        return false;
      }
      awaiting := ApplyPending(today, newId);
    }

    /**
     * `confirmAction` after the finalising call: shows the reply or the
     * failure, then always clears the pending action and stops loading. A
     * function call in the reply shows its question, but the action it set is
     * cleared with the rest. The recorded movement stands in every case.
     */
    method ConfirmFinish(reply: GatewayReply)
      modifies this
      ensures reply.Ok? ==> messages == old(messages) + ResponseMessages(reply.response)
      ensures reply.Failure? ==> messages == old(messages) + [AiMessage(FAILURE_PREFIX + reply.message)]
      ensures pendingAction.None? && !isLoading
      ensures chatError == old(chatError) && isInitialized == old(isInitialized) && hasSession == old(hasSession)
    {
      match reply {
        case Ok(resp) =>
          ProcessResponse(resp);
        case Failure(msg) =>
          messages := messages + [AiMessage(FAILURE_PREFIX + msg)];
      }
      pendingAction := None;
      isLoading := false;
    }

    /**
     * The whole confirmation handler run without interleaving, on the
     * corrected start. With a pending action and a session and nothing in
     * flight, it validates; a failing validation shows the failure and leaves
     * the store alone; a passing one records the movement and adjusts the
     * stock as `addMovement` does, then shows the finalising reply or its
     * failure. Either way it ends with no pending action and not loading.
     */
    method ConfirmAction(today: Day, newId: string, reply: GatewayReply)
      modifies this, store
      ensures old(pendingAction).Some? && old(hasSession) && !old(isLoading) ==>
                var call := old(pendingAction).value.functionCall;
                var err := ActionError(call, old(store.materials), old(store.collaborators));
                && pendingAction.None? && !isLoading
                && (err.Some? ==>
                      && messages == old(messages) + [AiMessage(FAILURE_PREFIX + err.value)]
                      && store.materials == old(store.materials) && store.movements == old(store.movements))
                && (err.None? ==>
                      && store.materials == StockAfter(old(store.materials), old(store.collaborators),
                                                       MovementFromArgs(call.args, today), call.args.kind, newId)
                      && store.movements == MovementsAfter(old(store.materials), old(store.collaborators), old(store.movements),
                                                           MovementFromArgs(call.args, today), call.args.kind, newId)
                      && (reply.Ok? ==> messages == old(messages) + ResponseMessages(reply.response))
                      && (reply.Failure? ==> messages == old(messages) + [AiMessage(FAILURE_PREFIX + reply.message)]))
      ensures old(pendingAction).None? || !old(hasSession) || old(isLoading) ==>
                && messages == old(messages) && pendingAction == old(pendingAction) && isLoading == old(isLoading)
                && store.materials == old(store.materials) && store.movements == old(store.movements)
      ensures store.collaborators == old(store.collaborators)
      ensures chatError == old(chatError) && isInitialized == old(isInitialized) && hasSession == old(hasSession)
    {
      var awaiting := ConfirmStartGuarded(today, newId);
      if awaiting {
        ConfirmFinish(reply);
      }
    }

    /** `cancelAction`: says so and drops the pending action; the store is not touched. */
    method CancelAction()
      modifies this
      ensures messages == old(messages) + [AiMessage(CANCELLED_TEXT)]
      ensures pendingAction.None?
      ensures isLoading == old(isLoading) && chatError == old(chatError)
      ensures isInitialized == old(isInitialized) && hasSession == old(hasSession)
    {
      messages := messages + [AiMessage(CANCELLED_TEXT)];
      pendingAction := None;
    }

    /** `resetChat`, as far as it clears state; the re-initialisation it triggers is a separate InitializeChat. */
    method ResetChat()
      modifies this
      ensures Valid()
      ensures messages == [] && pendingAction.None? && !isLoading && chatError.None?
      ensures !isInitialized && !hasSession
    {
      messages, pendingAction, isLoading, chatError := [], None, false, None;
      isInitialized, hasSession := false, false;
    }
  }

  /**
   * Confirm pressed twice while the finalising call of the first press is in
   * flight, as the Confirm button allows: both presses pass validation and the
   * same proposal is recorded twice, adjusting the stock twice.
   */
  method DoubleConfirmScenario() returns (recorded: nat, stock: int)
    ensures recorded == 2 && stock == 10
  {
    var store, chat := ProposalScenario();
    var call := chat.pendingAction.value.functionCall;
    ConfirmSingleEntry(store.materials[0], store.collaborators[0], store.movements, call, 1, "MOV1");
    var first := chat.ConfirmStart(1, "MOV1");
    assert first && chat.pendingAction.value.functionCall == call && chat.hasSession;
    assert |store.materials| == 1 && store.materials[0].nome == "Cabo" && store.materials[0].quantidade == 5;
    assert |store.movements| == 1;
    ConfirmSingleEntry(store.materials[0], store.collaborators[0], store.movements, call, 1, "MOV2");
    var second := chat.ConfirmStart(1, "MOV2");
    recorded, stock := |store.movements|, StockOfFirst(store.materials);
  }

  /** The same two presses against the corrected start: the second one is refused. */
  method GuardedConfirmScenario() returns (recorded: nat, stock: int)
    ensures recorded == 1 && stock == 5
  {
    var store, chat := ProposalScenario();
    var call := chat.pendingAction.value.functionCall;
    ConfirmSingleEntry(store.materials[0], store.collaborators[0], store.movements, call, 1, "MOV1");
    var first := chat.ConfirmStartGuarded(1, "MOV1");
    var second := chat.ConfirmStartGuarded(1, "MOV2");
    recorded, stock := |store.movements|, StockOfFirst(store.materials);
  }

  /** Confirming a proposal that names the only material and the only collaborator exactly records it. */
  lemma ConfirmSingleEntry(m: Material, c: Collaborator, movs: seq<Movement>, call: FunctionCall, today: Day, newId: string)
    requires call.name == REGISTER_ACTION && call.args.materialName == m.nome && call.args.collaboratorName == c.nome
    ensures ActionError(call, [m], [c]).None?
    ensures StockAfter([m], [c], MovementFromArgs(call.args, today), call.args.kind, newId)
              == [m.(quantidade := m.quantidade + StockDelta(call.args.kind, call.args.quantity))]
    ensures |MovementsAfter([m], [c], movs, MovementFromArgs(call.args, today), call.args.kind, newId)| == |movs| + 1
  {
    var input := MovementFromArgs(call.args, today);
    assert EqualsIgnoreCase([m][0].nome, call.args.materialName);
    assert EqualsIgnoreCase([c][0].nome, call.args.collaboratorName);
    assert MaterialExists([m], call.args.materialName);
    assert CollaboratorExists([c], call.args.collaboratorName);
    var o := ResolveMovement([m], [c], input, call.args.kind, newId);
    assert o.Recorded? && o.materialIndex == 0;
    AfterRecorded([m], [c], movs, input, call.args.kind, newId);
    SetStockAt([m], m.id, m.quantidade + StockDelta(call.args.kind, call.args.quantity));
    RecordMovementSorted(movs, o.movement);
  }

  function StockOfFirst(ms: seq<Material>): int
  {
    if ms == [] then 0 else ms[0].quantidade
  }

  /**
   * One material at stock 0, one collaborator, an initialised chat, and a
   * gateway reply proposing an inflow of 5 units: the action is pending.
   */
  method ProposalScenario() returns (store: Store, chat: ChatSession)
    ensures fresh(store) && fresh(chat) && chat.store == store
    ensures store.materials == [Material("MAT1", "Cabo", "P-01", 0, "A1", Some(0), 1.0)]
    ensures store.movements == [] && store.collaborators == [Collaborator("COL1", "Ana", Operador)]
    ensures chat.pendingAction == Some(PendingAction(FunctionCall(REGISTER_ACTION, ActionArgs("Cabo", 5, "Ana", Entrada, "")), ""))
    ensures chat.hasSession && !chat.isLoading
  {
    store := new Store([Material("MAT1", "Cabo", "P-01", 0, "A1", Some(0), 1.0)], [],
                       [Collaborator("COL1", "Ana", Operador)]);
    chat := new ChatSession(store);
    chat.InitializeChat(Started);
    var requested := chat.SendStart("registrar 5 cabos");
    var call := FunctionCall(REGISTER_ACTION, ActionArgs("Cabo", 5, "Ana", Entrada, ""));
    chat.SendFinish(Ok(Response([call], "")));
  }
}
