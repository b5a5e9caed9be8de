/** `KeySection`: the elder duties that face clients. It routes each key
    section duty to one sub-component, checks a client message's signature
    and then its authorisation before analysing it, turns a group decision
    into an auth duty, and renews the transfer replica's keys on churn.
    The sub-components (auth, gateway, payments, transfers, message
    analysis) and routing are not modelled: what they answer is given. */
module KeySection {
  import opened Wrappers
  import opened Primitives

  datatype MessageId = MessageId(id: XorName)

  /** Where a message came from (`safe_nd::Address`). */
  datatype Address = ClientAddress(name: XorName) | NodeAddress(name: XorName) | SectionAddress(name: XorName)

  /** The parts of a client message and duty that only the sub-components
      look into. */
  datatype PublicId = PublicId(key: Bytes)
  datatype MsgEnvelope = MsgEnvelope(message: Bytes, origin: Address)
  datatype Cmd = Cmd(payload: Bytes)
  datatype GatewayDuty = GatewayDuty(payload: Bytes)
  datatype PaymentDuty = PaymentDuty(payload: Bytes)
  datatype TransferDuty = TransferDuty(payload: Bytes)
  /** A message a sub-component wants sent, such as an error to a client. */
  datatype MessagingDuty = MessagingDuty(payload: Bytes)

  datatype GroupDecision = Process(cmd: Cmd, msgId: MessageId, origin: Address)

  /** The auth duties; `Process` is the one this component creates. */
  datatype AuthDuty =
    | Process(cmd: Cmd, msgId: MessageId, origin: Address)
    | OtherAuthDuty(payload: Bytes)

  datatype KeySectionDuty =
    | EvaluateClientMsg(publicId: PublicId, msg: MsgEnvelope)
    | ProcessGroupDecision(decision: GroupDecision)
    | RunAsAuth(authDuty: AuthDuty)
    | RunAsGateway(gatewayDuty: GatewayDuty)
    | RunAsPayment(paymentDuty: PaymentDuty)
    | RunAsTransfers(transferDuty: TransferDuty)

  /** The work a duty hands on: another key section duty (an `AuthDuty`
      converts into `RunAsAuth`), a message to send, or other node work. */
  datatype NodeOperation =
    | RunAsKeySection(duty: KeySectionDuty)
    | SendMessage(message: MessagingDuty)
    | OtherOperation(payload: Bytes)

  /** What the sub-components answer: the signature check and the app
      authorisation give an error message or nothing, the others the work
      they hand on. */
  datatype Collaborators = Collaborators(
    verifyClientSignature: MsgEnvelope -> Option<MessagingDuty>,
    authoriseApp: (PublicId, MsgEnvelope) -> Option<MessagingDuty>,
    analyse: MsgEnvelope -> Option<NodeOperation>,
    auth: AuthDuty -> Option<NodeOperation>,
    gateway: GatewayDuty -> Option<NodeOperation>,
    payments: PaymentDuty -> Option<NodeOperation>,
    transfers: TransferDuty -> Option<NodeOperation>)

  /** A sub-component consulted while handling a duty. */
  datatype Call =
    | VerifyClientSignature
    | AuthoriseApp
    | Analyse
    | Auth
    | Gateway
    | Payments
    | Transfers

  /** The operation a duty yields and the sub-components consulted for it,
      in order. */
  datatype Handled = Handled(op: Option<NodeOperation>, calls: seq<Call>)

  /** The sub-component a `RunAs…` duty belongs to. */
  function HandlerOf(duty: KeySectionDuty): Call
    requires duty.RunAsAuth? || duty.RunAsGateway? || duty.RunAsPayment? || duty.RunAsTransfers?
  {
    match duty
    case RunAsAuth(_) => Auth
    case RunAsGateway(_) => Gateway
    case RunAsPayment(_) => Payments
    case RunAsTransfers(_) => Transfers
  }

  /** `evaluate`: the signature is checked first, then the app's
      authorisation, and only a message passing both is analysed. */
  function Evaluate(c: Collaborators, publicId: PublicId, msg: MsgEnvelope): (r: Handled)
    ensures |r.calls| > 0 && r.calls[0] == VerifyClientSignature
    ensures c.verifyClientSignature(msg).Some? ==>
      r == Handled(Some(SendMessage(c.verifyClientSignature(msg).value)), [VerifyClientSignature])
    ensures c.verifyClientSignature(msg).None? && c.authoriseApp(publicId, msg).Some? ==>
      r == Handled(Some(SendMessage(c.authoriseApp(publicId, msg).value)), [VerifyClientSignature, AuthoriseApp])
    ensures Analyse in r.calls <==> c.verifyClientSignature(msg).None? && c.authoriseApp(publicId, msg).None?
    ensures Analyse in r.calls ==> r == Handled(c.analyse(msg), [VerifyClientSignature, AuthoriseApp, Analyse])
  {
    match c.verifyClientSignature(msg)
    case Some(error) => Handled(Some(SendMessage(error)), [VerifyClientSignature])
    case None =>
      match c.authoriseApp(publicId, msg)
      case Some(error) => Handled(Some(SendMessage(error)), [VerifyClientSignature, AuthoriseApp])
      case None => Handled(c.analyse(msg), [VerifyClientSignature, AuthoriseApp, Analyse])
  }

  /** `process_group_decision`: the decided command becomes an auth duty to
      process it, with the same command, message id and origin. */
  function ProcessGroupDecision(decision: GroupDecision): (r: Handled)
    ensures r.calls == [] && r.op.Some? && r.op.value.RunAsKeySection?
    ensures r.op.value.duty.RunAsAuth? && r.op.value.duty.authDuty.Process?
    ensures var duty := r.op.value.duty.authDuty;
      duty.cmd == decision.cmd && duty.msgId == decision.msgId && duty.origin == decision.origin
  {
    match decision
    case Process(cmd, msgId, origin) => Handled(Some(RunAsKeySection(RunAsAuth(AuthDuty.Process(cmd, msgId, origin)))), [])
  }

  /** `process`: every duty is handled by exactly one of `evaluate`,
      `process_group_decision` and the four sub-components. */
  function Dispatch(c: Collaborators, duty: KeySectionDuty): (r: Handled)
    ensures duty.EvaluateClientMsg? ==> r == Evaluate(c, duty.publicId, duty.msg)
    ensures duty.ProcessGroupDecision? ==> r == ProcessGroupDecision(duty.decision)
    ensures duty.RunAsAuth? ==> r == Handled(c.auth(duty.authDuty), [Auth])
    ensures duty.RunAsGateway? ==> r == Handled(c.gateway(duty.gatewayDuty), [Gateway])
    ensures duty.RunAsPayment? ==> r == Handled(c.payments(duty.paymentDuty), [Payments])
    ensures duty.RunAsTransfers? ==> r == Handled(c.transfers(duty.transferDuty), [Transfers])
    ensures duty.RunAsAuth? || duty.RunAsGateway? || duty.RunAsPayment? || duty.RunAsTransfers? ==>
      r.calls == [HandlerOf(duty)]
  {
    match duty
    case EvaluateClientMsg(publicId, msg) => Evaluate(c, publicId, msg)
    case ProcessGroupDecision(decision) => ProcessGroupDecision(decision)
    case RunAsAuth(d) => Handled(c.auth(d), [Auth])
    case RunAsGateway(d) => Handled(c.gateway(d), [Gateway])
    case RunAsPayment(d) => Handled(c.payments(d), [Payments])
    case RunAsTransfers(d) => Handled(c.transfers(d), [Transfers])
  }

  /** A group decision, processed again as the duty it yields, reaches auth
      with the decided command, message id and origin. */
  lemma GroupDecisionReachesAuth(c: Collaborators, decision: GroupDecision)
    ensures var next := ProcessGroupDecision(decision).op.value.duty;
      Dispatch(c, next) == Handled(c.auth(AuthDuty.Process(decision.cmd, decision.msgId, decision.origin)), [Auth])
  {
  }

  /** A client message whose signature fails is answered with the
      signature error and never reaches authorisation or analysis. */
  lemma BadSignatureStopsEvaluation(c: Collaborators, publicId: PublicId, msg: MsgEnvelope)
    requires c.verifyClientSignature(msg).Some?
    ensures var r := Dispatch(c, EvaluateClientMsg(publicId, msg));
      r.op == Some(SendMessage(c.verifyClientSignature(msg).value)) &&
      AuthoriseApp !in r.calls && Analyse !in r.calls
  {
  }

  datatype PublicKeySet = PublicKeySet(encoded: Bytes)
  datatype SecretKeyShare = SecretKeyShare(encoded: Bytes)
  datatype SectionProofChain = SectionProofChain(encoded: Bytes)

  datatype RoutingError = InvalidState | RoutingFailure(description: string)

  /** What routing reports about the section's keys when asked; the history
      is an `Option`, the rest `Result`s. */
  datatype RoutingView = RoutingView(
    publicKeySet: Result<PublicKeySet, RoutingError>,
    secretKeyShare: Result<SecretKeyShare, RoutingError>,
    ourIndex: Result<nat, RoutingError>,
    ourHistory: Option<SectionProofChain>)

  /** The keys a transfer replica signs and validates with. */
  datatype ReplicaKeys = ReplicaKeys(
    secretKeyShare: SecretKeyShare,
    keyIndex: nat,
    publicKeySet: PublicKeySet,
    proofChain: SectionProofChain)

  /** A replica manager: its keys and the accounts it starts with. */
  datatype ReplicaManager = ReplicaManager(keys: ReplicaKeys, accounts: seq<Bytes>)

  datatype NodeError = Routing(error: RoutingError) | Replica(description: string)

  /** `replica_manager`: the key set, key share, index and history, asked
      of routing in that order; the first failure is the result, a missing
      history failing with InvalidState. Otherwise `create` builds the
      manager with the keys and no accounts. */
  function ReplicaManagerOf(routing: RoutingView, create: (ReplicaKeys, seq<Bytes>) -> Result<ReplicaManager, NodeError>)
    : (r: Result<ReplicaManager, NodeError>)
    ensures routing.publicKeySet.Err? ==> r == Err(Routing(routing.publicKeySet.error))
    ensures routing.publicKeySet.Ok? && routing.secretKeyShare.Err? ==> r == Err(Routing(routing.secretKeyShare.error))
    ensures routing.publicKeySet.Ok? && routing.secretKeyShare.Ok? && routing.ourIndex.Err? ==>
      r == Err(Routing(routing.ourIndex.error))
    ensures routing.publicKeySet.Ok? && routing.secretKeyShare.Ok? && routing.ourIndex.Ok? && routing.ourHistory.None? ==>
      r == Err(Routing(InvalidState))
    ensures r.Ok? ==> routing.publicKeySet.Ok? && routing.secretKeyShare.Ok? && routing.ourIndex.Ok? && routing.ourHistory.Some?
    ensures r.Ok? ==>
      r == create(ReplicaKeys(routing.secretKeyShare.value, routing.ourIndex.value, routing.publicKeySet.value,
                              routing.ourHistory.value), [])
  {
    match routing.publicKeySet
    case Err(e) => Err(Routing(e))
    case Ok(publicKeySet) =>
      match routing.secretKeyShare
      case Err(e) => Err(Routing(e))
      case Ok(secretKeyShare) =>
        match routing.ourIndex
        case Err(e) => Err(Routing(e))
        case Ok(keyIndex) =>
          match routing.ourHistory
          case None => Err(Routing(InvalidState))
          case Some(proofChain) => create(ReplicaKeys(secretKeyShare, keyIndex, publicKeySet, proofChain), [])
  }

  /** The key section's own state: the replica key updates it has handed
      to the transfers component, in order. */
  class KeySection {
    var churnUpdates: seq<ReplicaKeys>

    constructor ()
      ensures churnUpdates == []
    {
      churnUpdates := [];
    }

    /** `elders_changed`: asks routing for the key set, key share, history
        and index, in that order, and stops at the first that is missing;
        with all four it hands them to the transfers component. It never
        yields an operation. */
    method EldersChanged(routing: RoutingView) returns (op: Option<NodeOperation>)
      modifies this
      ensures op.None?
      ensures churnUpdates ==
        if routing.publicKeySet.Ok? && routing.secretKeyShare.Ok? && routing.ourHistory.Some? && routing.ourIndex.Ok?
        then old(churnUpdates) + [ReplicaKeys(routing.secretKeyShare.value, routing.ourIndex.value,
                                              routing.publicKeySet.value, routing.ourHistory.value)]
        else old(churnUpdates)
    {
      if routing.publicKeySet.Err? {
        return None;
      }
      var publicKeySet := routing.publicKeySet.value;
      if routing.secretKeyShare.Err? {
        return None;
      }
      var secretKeyShare := routing.secretKeyShare.value;
      if routing.ourHistory.None? {
        return None;
      }
      var proofChain := routing.ourHistory.value;
      if routing.ourIndex.Err? {
        return None;
      }
      var ourIndex := routing.ourIndex.value;
      churnUpdates := churnUpdates + [ReplicaKeys(secretKeyShare, ourIndex, publicKeySet, proofChain)];
      return None;
    }
  }
}
