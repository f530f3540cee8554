/** The HTTP responses the server's handlers send: a status and one of a few JSON bodies. */
module Http {
  import Schema

  datatype Body =
    | MessageBody(message: string)
    | InvalidInput(message: string, errors: seq<Schema.Issue>)
    | StoredAnalysis(analysis: Schema.MatchAnalysis, fallbackUsed: bool)
    | AnalysisBody(analysis: Schema.MatchAnalysis)
    | TextBody(text: string)

  datatype Response = Response(status: nat, body: Body)

  const InvalidInputMessage := "Invalid input data"
}
