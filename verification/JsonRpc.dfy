/**
 JSON-RPC requests, responses and errors as proxyd sees them.
 A raw message that is nil in the source (an absent `id`) is the empty string here.
 */
module JsonRpc {
  import opened Common

  datatype Req = Req(jsonrpc: string, rpcMethod: string, params: string, id: string)

  datatype RpcErr = RpcErr(code: int, message: string, httpCode: int)

  datatype Res = Res(jsonrpc: string, result: Option<string>, error: Option<RpcErr>, id: string)

  /** A Go `error`: an `*RPCErr`, the sentinel for unexpected JSON-RPC, or any other error. */
  datatype Failure = Rpc(err: RpcErr) | UnexpectedJsonRpc | Plain(message: string)

  const VERSION := "2.0"
  const INTERNAL: int := -32000

  const PARSE_ERROR := RpcErr(-32700, "parse error", 400)
  const NOT_WHITELISTED := RpcErr(INTERNAL - 1, "rpc method is not whitelisted", 403)
  const BACKEND_OFFLINE := RpcErr(INTERNAL - 10, "backend offline", 503)
  const NO_BACKENDS := RpcErr(INTERNAL - 11, "no backends available for method", 503)
  const OVER_CAPACITY := RpcErr(INTERNAL - 12, "backend is over capacity", 429)
  const BAD_RESPONSE := RpcErr(INTERNAL - 13, "backend returned an invalid response", 500)

  function InvalidRequest(message: string): RpcErr {
    RpcErr(-32601, message, 400)
  }

  predicate ValidId(id: string) {
    if |id| > 0 && id[0] == '"' && id[|id| - 1] == '"' then |id| > 2
    else |id| > 0 && id[0] != '{' && id[0] != '['
  }

  /** The first rule a request breaks, if any. */
  function Validate(req: Req): Option<RpcErr> {
    if req.jsonrpc != VERSION then Some(InvalidRequest("invalid JSON-RPC version"))
    else if req.rpcMethod == "" then Some(InvalidRequest("no method specified"))
    else if !ValidId(req.id) then Some(InvalidRequest("invalid ID"))
    else None
  }

  function FailureMessage(f: Failure): string {
    match f
    case Rpc(e) => e.message
    case UnexpectedJsonRpc => "backend returned an unexpected JSON-RPC response"
    case Plain(m) => m
  }

  /** An RPC error keeps its own code; every other error is reported as internal. */
  function ErrorRes(id: string, f: Failure): Res {
    var e := if f.Rpc? then f.err else RpcErr(INTERNAL, FailureMessage(f), 0);
    Res(VERSION, None, Some(e), id)
  }

  function ResultRes(id: string, result: string): Res {
    Res(VERSION, Some(result), None, id)
  }

  function ReqIds(reqs: seq<Req>): seq<string> {
    seq(|reqs|, i requires 0 <= i < |reqs| => reqs[i].id)
  }

  function ResIds(res: seq<Res>): seq<string> {
    seq(|res|, i requires 0 <= i < |res| => res[i].id)
  }

  predicate DistinctIds(reqs: seq<Req>) {
    forall i, j | 0 <= i < j < |reqs| :: reqs[i].id != reqs[j].id
  }
}
