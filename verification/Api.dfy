/** The parts of the sandbox API that several components read. */
module Api {

  // Fresh is the empty phase of an object no pass has touched. The controller never writes Deleting.
  datatype Phase = Fresh | Creating | Running | Stopped | Error | Deleting

  datatype Reference = Reference(kind: string, namespace: string, name: string)

  const AGENT_MODE := "agent"
}
