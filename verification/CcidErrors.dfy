/** Errors of the CCID descriptor parser, wire codec and slot engine. */
module CcidErrors {
  import opened Bytes

  datatype IoError =
    | IoConnectionLost
    | DeviceDisconnected
    | ShortWrite(expected: nat, transferred: nat)
    | BulkInUnderflow
    | SyntheticFailure

  datatype Desync =
    | SlotRecoveryRequired
    | OperationAlreadyPending
    | InvalidParametersLength(protocol: byte, length: nat)
    | ChainBeginAlreadyOpen
    | ChainContinueWithoutBegin
    | ChainEndWithoutBegin
    | ChainCompleteWhileOpen
    | UnexpectedCommandContinuation
    | OtherDesync(code: nat)

  datatype CcidError =
    | TruncatedDescriptorHeader
    | InvalidDescriptorLength
    | TruncatedDescriptor
    | InvalidInterfaceDescriptor
    | MissingCcidDescriptor
    | CcidDescriptorTooShort
    | InvalidFunctionalDescriptorType(actualType: byte)
    | InvalidExchangeLevel
    | InvalidApduConfiguration
    | MessageLengthOutOfRange
    | TransferMessageBoundTooSmall
    | UnsupportedProtocol
    | TruncatedHeader
    | ResponseLengthOutOfRange
    | LengthMismatch
    | UnexpectedMessageType(expected: byte, actual: byte)
    | UnexpectedSlot(expected: byte, actual: byte)
    | UnexpectedSequence(expected: byte, actual: byte)
    | ReservedStatusBits
    | ReservedCardStatus
    | ReservedCommandStatus
    | UnexpectedPayload
    | InvalidClockStatus
    | InvalidChainParameter
    | CommandFailed(errorCode: int)
    | Io(io: IoError)
    | ProtocolDesync(desync: Desync)
    | Timeout
    | Cancelled
    | CardRemoved
    | ApduTooLong
    | OtherError(detail: nat) // variants only other layers raise
}
