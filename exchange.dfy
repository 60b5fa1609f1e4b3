/**
 * The exchange as the core sees it: every endpoint call either fails (an
 * HTTP error, a timeout, an undecodable body: `_get`/`_post` raise) or
 * returns a decoded JSON body whose `data` member the core reads a few
 * fields of. The replies are an input of the model; the calls made are
 * recorded in order.
 */
module Exchange {
  import opened Wrappers
  import opened LBankClient

  /** One element of the `data` list of a positions query. */
  datatype PositionEntry = PositionEntry(side: Option<string>, unrealizedPnl: Option<real>)

  /**
   * The fields of `data` that the core reads; `None` is an absent key, and an
   * absent `data` member reads as all fields absent and no entries.
   */
  datatype Data = Data(
    availableBalance: Option<real>,
    orderId: Option<string>,
    status: Option<string>,
    avgPrice: Option<real>,
    entries: seq<PositionEntry>)

  datatype Reply = Failed | Ok(data: Data)

  /** The exchange behind the client: a fixed answer per call, and the log of calls made. */
  class Venue {
    const answer: Endpoint -> Reply
    var log: seq<Endpoint>

    constructor (answer: Endpoint -> Reply)
      ensures this.answer == answer && log == []
    {
      this.answer := answer;
      log := [];
    }

    /** Sends one request and returns the exchange's reply. */
    method Call(e: Endpoint) returns (r: Reply)
      modifies this
      ensures log == old(log) + [e]
      ensures r == answer(e)
    {
      log := log + [e];
      r := answer(e);
    }
  }
}
