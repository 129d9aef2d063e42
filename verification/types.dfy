/** The records the backend returns, as the client declares them. Numbers
    the client only compares or copies are `real`; token counts are `int`. */
module Types {
  import opened Common

  datatype TokenMetrics = TokenMetrics(rawTokens: int, compressedTokens: int, savingsRatio: real)

  /** The result of running a prompt: what the playground shows. */
  datatype ExecuteResponse = ExecuteResponse(
    provider: string,
    model: Option<string>,
    rawText: string,
    compressedText: string,
    output: string,
    tokens: TokenMetrics)

  /** One row of the optimization history. An empty `createdAt` stands for a
      missing timestamp. */
  datatype ActivityLog = ActivityLog(
    id: int,
    provider: string,
    model: Option<string>,
    rawText: string,
    compressedText: string,
    rawTokens: int,
    compressedTokens: int,
    savingsRatio: real,
    latencyMs: real,
    createdAt: string)
}
