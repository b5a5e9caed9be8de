/** `SectionFunds`: pays out rewards from the section's account through a
    transfer actor. Each step applies the actor's event before the network
    command announcing it is built; when the actor yields no event or an
    error, nothing is applied and nothing is sent. The actor itself is not
    modelled: what `transfer` and `receive` return is given, and the events
    applied to it are kept as a log. */
module SectionFunds {
  import opened Wrappers
  import opened Primitives

  type AccountId = Bytes

  /** An amount of money in nano units. */
  type Money = u64

  datatype SignedTransfer = SignedTransfer(sender: AccountId, recipient: AccountId, amount: Money, signature: Bytes)

  /** One elder's validation of a transfer. */
  datatype TransferValidated = TransferValidated(signedTransfer: SignedTransfer, signatureShare: Bytes)

  /** The section's aggregated agreement to a transfer. */
  datatype TransferAgreementProof = TransferAgreementProof(signedTransfer: SignedTransfer, sectionSignature: Bytes)

  /** The payload of `TransferInitiated`. */
  datatype Initiation = Initiation(signedTransfer: SignedTransfer)

  /** The payload of `TransferValidationReceived`: the proof is there once
      enough validations have arrived. */
  datatype ValidationReceipt = ValidationReceipt(validation: TransferValidated, proof: Option<TransferAgreementProof>)

  datatype ActorEvent =
    | TransferInitiated(initiation: Initiation)
    | TransferValidationReceived(receipt: ValidationReceipt)

  datatype ActorError = ActorError(description: string)

  datatype NetworkCmd =
    | InitiateRewardPayout(signedTransfer: SignedTransfer)
    | FinaliseRewardPayout(proof: TransferAgreementProof)

  /** A command the elder's message decisions send to the network. */
  datatype OutboundMsg = SendNetworkCmd(cmd: NetworkCmd)

  /** The events one step applies to the actor, in order, and the message
      it sends. */
  datatype Step = Step(applied: seq<ActorEvent>, sent: Option<OutboundMsg>)

  /** `initiate_reward_payout`, given what the actor's `transfer` returned:
      an initiated transfer is applied and announced, anything else is
      dropped. */
  function PayoutStep(transfer: Result<Option<Initiation>, ActorError>): (s: Step)
    ensures s.sent.Some? <==> transfer.Ok? && transfer.value.Some?
    ensures s.sent.Some? ==>
      s.applied == [TransferInitiated(transfer.value.value)] &&
      s.sent.value == SendNetworkCmd(InitiateRewardPayout(transfer.value.value.signedTransfer))
    ensures s.sent.None? ==> s.applied == []
  {
    match transfer
    case Ok(Some(event)) =>
      Step([TransferInitiated(event)], Some(SendNetworkCmd(InitiateRewardPayout(event.signedTransfer))))
    case Ok(None) => Step([], None)
    case Err(_) => Step([], None)
  }

  /** `receive`, given what the actor's `receive` returned: a received
      validation is applied, and finalised only when it completes a proof. */
  function ReceiveStep(received: Result<Option<ValidationReceipt>, ActorError>): (s: Step)
    ensures s.applied == if received.Ok? && received.value.Some? then [TransferValidationReceived(received.value.value)] else []
    ensures s.sent.Some? <==> received.Ok? && received.value.Some? && received.value.value.proof.Some?
    ensures s.sent.Some? ==> s.sent.value == SendNetworkCmd(FinaliseRewardPayout(received.value.value.proof.value))
  {
    match received
    case Ok(Some(event)) =>
      Step([TransferValidationReceived(event)],
           if event.proof.Some? then Some(SendNetworkCmd(FinaliseRewardPayout(event.proof.value))) else None)
    case Ok(None) => Step([], None)
    case Err(_) => Step([], None)
  }

  /** Every message a step sends announces the event it applied: the
      initiated transfer, or the proof the received validation completed. */
  lemma SentOnlyWhatWasApplied(transfer: Result<Option<Initiation>, ActorError>, received: Result<Option<ValidationReceipt>, ActorError>)
    ensures var p := PayoutStep(transfer);
      p.sent.Some? ==>
        |p.applied| == 1 && p.applied[0].TransferInitiated? &&
        p.sent.value.cmd == InitiateRewardPayout(p.applied[0].initiation.signedTransfer)
    ensures var r := ReceiveStep(received);
      r.sent.Some? ==>
        |r.applied| == 1 && r.applied[0].TransferValidationReceived? &&
        r.applied[0].receipt.proof.Some? && r.sent.value.cmd == FinaliseRewardPayout(r.applied[0].receipt.proof.value)
  {
  }

  /** A validation received without a completed proof is applied but
      announces nothing. */
  lemma ValidationWithoutProofStaysQuiet(validation: TransferValidated)
    ensures ReceiveStep(Ok(Some(ValidationReceipt(validation, None)))) ==
      Step([TransferValidationReceived(ValidationReceipt(validation, None))], None)
  {
  }

  class SectionFunds {
    /** The events applied to the transfer actor, in order. */
    ghost var applied: seq<ActorEvent>

    constructor ()
      ensures applied == []
    {
      applied := [];
    }

    /** `initiate_reward_payout(amount, to)`; `transfer` is what the actor's
        `transfer(amount, to)` returned. `amount` and `to` only name the
        actor's inputs: the actor is not modelled, so nothing here ties
        `transfer` to them. */
    method InitiateRewardPayout(amount: Money, to: AccountId, transfer: Result<Option<Initiation>, ActorError>)
      returns (msg: Option<OutboundMsg>)
      modifies this
      ensures var step := PayoutStep(transfer);
        applied == old(applied) + step.applied && msg == step.sent
    {
      match transfer {
        case Ok(Some(event)) =>
          applied := applied + [TransferInitiated(event)];
          msg := Some(SendNetworkCmd(NetworkCmd.InitiateRewardPayout(event.signedTransfer)));
        case Ok(None) =>
          msg := None;
        case Err(_) =>
          msg := None;
      }
    }

    /** `receive(validation)`; `received` is what the actor's
        `receive(validation)` returned. */
    method Receive(validation: TransferValidated, received: Result<Option<ValidationReceipt>, ActorError>)
      returns (msg: Option<OutboundMsg>)
      modifies this
      ensures var step := ReceiveStep(received);
        applied == old(applied) + step.applied && msg == step.sent
    {
      match received {
        case Ok(Some(event)) =>
          applied := applied + [TransferValidationReceived(event)];
          if event.proof.None? {
            return None;
          }
          msg := Some(SendNetworkCmd(FinaliseRewardPayout(event.proof.value)));
        case Ok(None) =>
          msg := None;
        case Err(_) =>
          msg := None;
      }
    }
  }
}
