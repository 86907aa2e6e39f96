/** What the stages of the pipeline share: the rows they hand on, and how a statement can go. */
module Stages {

  datatype ProbeKey = ProbeKey(ip: string, port: int, transport: string)

  /** Lost: the statement ran but its caller saw an error. */
  datatype Reply = Done | Lost | Refused
}
