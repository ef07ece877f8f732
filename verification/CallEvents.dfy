// What the scenarios share of the SIP library's callbacks.
module CallEvents {
  // Who took a call down, as the disc_cbs and fail_cbs callbacks are told.
  datatype Origin = Switch | Caller | Callee
}
