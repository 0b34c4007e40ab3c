/** `HarlequinWherobotsAdapter.connect`: which host the connection is opened against. */
module Adapter {
  import opened Wrappers

  /** "Cannot provide more than one connection string for the Wherobots adapter." */
  datatype ConnectError = TooManyConnectionStrings

  /**
   * The host for the connection strings given on the command line: at most one is allowed;
   * with none the driver's default endpoint is used, and a given base domain is reached
   * through its "api." sub-domain.
   */
  function ConnectHost(connStr: seq<string>, defaultEndpoint: string): (host: Result<string, ConnectError>)
    ensures host.Failure? <==> |connStr| > 1
    ensures connStr == [] ==> host == Success(defaultEndpoint)
    ensures |connStr| == 1 ==> host.Success? && |host.value| >= 4 && host.value[..4] == "api." && host.value[4..] == connStr[0]
  {
    if |connStr| > 1 then Failure(TooManyConnectionStrings)
    else if connStr != [] then Success("api." + connStr[0])
    else Success(defaultEndpoint)
  }
}
