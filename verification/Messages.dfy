// The messages exchanged by the devices and the server.
module Messages {
  import opened CTypes

  datatype ErrorType = NoSchedule | NoTimestamp | Obsolete

  datatype Message =
    | MessageError(errorType: ErrorType)
    | MessageCommand(command: int8)
    | MessageMeterage(timeStamp: uint64, meterage: uint8)
}
