/**
 proxyd's response cache: the method handlers over one store of strings, and the values that the static
 handlers keep. The store is shared with the last-value cache, which keeps the latest block number and
 gas price in it uncompressed.
 */
module RpcCache {
  import opened Common
  import opened JsonRpc
  import opened CacheKeys

  /** A JSON result. */
  type Value = string

  /** JSON, snappy, decimal and hexadecimal encoding, as functions. */
  datatype Codec = Codec(
    marshal: Value -> string,
    unmarshal: string -> Option<Value>,
    compress: string -> string,
    decompress: string -> Option<string>,
    formatU64: nat -> string,
    parseU64: string -> Option<nat>,
    quantity: nat -> Value,
    list: string -> Option<seq<Json>>,
    call: string -> Option<(CallParams, string)>)

  /** Encodings can be undone and are never empty. */
  ghost predicate CodecOk(c: Codec) {
    && (forall v :: c.unmarshal(c.marshal(v)) == Some(v) && c.marshal(v) != "")
    && (forall s :: c.decompress(c.compress(s)) == Some(s) && c.compress(s) != "")
    && (forall n: nat | n < U64_MODULUS :: c.parseU64(c.formatU64(n)) == Some(n) && c.formatU64(n) != "")
  }

  type Store = map<string, string>

  /** Everything the cache holds: the store, and one value per static method. */
  datatype Memory = Memory(store: Store, statics: map<string, Value>)

  const EMPTY := Memory(map[], map[])

  predicate IsStatic(rpcMethod: string) {
    rpcMethod == "eth_chainId" || rpcMethod == "net_version"
  }

  /** What a handler reads under a key: empty text, or text that does not decode, is no answer. */
  function Lookup(codec: Codec, store: Store, key: string): Option<Value> {
    if key !in store || store[key] == "" then None
    else
      var text := codec.decompress(store[key]);
      if text.None? || text.value == "" then None else codec.unmarshal(text.value)
  }

  function Encode(codec: Codec, v: Value): string {
    codec.compress(codec.marshal(v))
  }

  lemma LookupEncoded(codec: Codec, store: Store, key: string, v: Value)
    requires CodecOk(codec) && key in store && store[key] == Encode(codec, v)
    ensures Lookup(codec, store, key) == Some(v)
  {
    assert codec.marshal(v) != "" && codec.unmarshal(codec.marshal(v)) == Some(v);
  }

  /** The latest number that the last-value cache holds under this key. */
  function LastValue(codec: Codec, store: Store, key: string): Option<nat> {
    if key !in store || store[key] == "" then None else codec.parseU64(store[key])
  }

  function LatestBlock(codec: Codec, store: Store): Option<nat> {
    LastValue(codec, store, BLOCK_NUMBER_KEY)
  }

  /** The confirmation guard, in uint64 arithmetic: the input may be stored. */
  predicate Settled(input: string, latest: nat, confirmations: nat) {
    || input == "earliest"
    || (DecodeBlockInput(input).Some? && latest > AddU64(DecodeBlockInput(input).value, confirmations))
  }

  function DecodeParams(codec: Codec, req: Req): (p: Option<Params>)
    ensures p.Some? ==> ValidParams(p.value)
  {
    if req.rpcMethod == "eth_getBlockByNumber" then DecodeByNumber(codec.list(req.params))
    else if req.rpcMethod == "eth_getBlockRange" then DecodeRange(codec.list(req.params))
    else None
  }

  predicate MayStore(p: Params, latest: Option<nat>, confirmations: nat) {
    match p
    case ByNumber(input, _) =>
      input == "earliest" || (latest.Some? && Settled(input, latest.value, confirmations))
    case Range(start, end, _) =>
      latest.Some? && Settled(start, latest.value, confirmations) && Settled(end, latest.value, confirmations)
  }

  predicate MayStoreCall(tag: string, latest: Option<nat>, confirmations: nat) {
    tag == "earliest" || (latest.Some? && Settled(tag, latest.value, confirmations))
  }

  /** The key a request is looked up under, if it is cacheable. */
  function GetKey(codec: Codec, req: Req): Option<string> {
    if req.rpcMethod == "eth_call" then
      var call := codec.call(req.params);
      if call.Some? && CallCacheable(call.value.0, call.value.1) then Some(CallKey(call.value.0, call.value.1))
      else None
    else
      var p := DecodeParams(codec, req);
      if p.Some? && Cacheable(p.value) then Some(Key(p.value)) else None
  }

  /** The key a response to this request is stored under, if it may be stored. */
  function PutKey(codec: Codec, req: Req, latest: Option<nat>, confirmations: nat): Option<string> {
    if req.rpcMethod == "eth_call" then
      var call := codec.call(req.params);
      if call.Some? && !MayStoreCall(call.value.1, latest, confirmations) then None else GetKey(codec, req)
    else
      var p := DecodeParams(codec, req);
      if p.Some? && !MayStore(p.value, latest, confirmations) then None else GetKey(codec, req)
  }

  /** What a put writes once its guard has passed. A static value is stored once and for all. */
  function Write(codec: Codec, mem: Memory, req: Req, v: Value): Memory {
    var key := GetKey(codec, req);
    Memory(if key.None? then mem.store else mem.store[key.value := Encode(codec, v)],
           if IsStatic(req.rpcMethod) && req.rpcMethod !in mem.statics then mem.statics[req.rpcMethod := v]
           else mem.statics)
  }

  /** The guard of a put: there is a key to store under and it may be used now, or the method is static. */
  predicate MayPut(codec: Codec, confirmations: nat, mem: Memory, req: Req) {
    PutKey(codec, req, LatestBlock(codec, mem.store), confirmations).Some? || IsStatic(req.rpcMethod)
  }

  /** Storing the result of a request: the guard, and then the write. */
  function AfterPut(codec: Codec, confirmations: nat, mem: Memory, req: Req, v: Value): Memory {
    if MayPut(codec, confirmations, mem, req) then Write(codec, mem, req, v) else mem
  }

  lemma WriteThenKnown(codec: Codec, mem: Memory, req: Req, v: Value)
    requires CodecOk(codec) && GetKey(codec, req).Some?
    ensures Known(codec, Write(codec, mem, req, v), req) == Some(v)
  {
    LookupEncoded(codec, Write(codec, mem, req, v).store, GetKey(codec, req).value, v);
  }

  /** The result the cache knows for a request. */
  function Known(codec: Codec, mem: Memory, req: Req): Option<Value> {
    if IsStatic(req.rpcMethod) then
      if req.rpcMethod in mem.statics then Some(mem.statics[req.rpcMethod]) else None
    else if req.rpcMethod == "eth_blockNumber" || req.rpcMethod == "eth_gasPrice" then
      var key := if req.rpcMethod == "eth_blockNumber" then BLOCK_NUMBER_KEY else GAS_PRICE_KEY;
      var n := LastValue(codec, mem.store, key);
      if n.None? then None else Some(codec.quantity(n.value))
    else
      var key := GetKey(codec, req);
      if key.None? then None else Lookup(codec, mem.store, key.value)
  }

  /** The request's own ID is on every hit, whoever stored the result; so is the only version there is. */
  predicate IsHit(req: Req, v: Value, res: Res) {
    res.id == req.id && res.result == Some(v) && res.error.None? && (req.jsonrpc == VERSION ==> res.jsonrpc == VERSION)
  }

  function Hit(req: Req, v: Value): Res {
    Res(if req.rpcMethod == "eth_blockNumber" || req.rpcMethod == "eth_gasPrice" then VERSION else req.jsonrpc,
        Some(v), None, req.id)
  }

  /** The response the cache gives to a request, if it gives one. */
  function Get(codec: Codec, mem: Memory, req: Req): (res: Option<Res>)
    ensures res.Some? <==> Known(codec, mem, req).Some?
    ensures res.Some? ==> IsHit(req, Known(codec, mem, req).value, res.value)
  {
    var v := Known(codec, mem, req);
    if v.None? then None else Some(Hit(req, v.value))
  }

  /** What is put under one request can be read back at once under any request that differs only in ID;
      a refused put changes no answer, and a static value is never replaced. */
  lemma PutThenGet(codec: Codec, confirmations: nat, mem: Memory, req: Req, v: Value, id: string)
    requires CodecOk(codec)
    ensures var after := AfterPut(codec, confirmations, mem, req, v);
            var again := req.(id := id);
            Known(codec, after, again) ==
            if PutKey(codec, req, LatestBlock(codec, mem.store), confirmations).Some? then Some(v)
            else if IsStatic(req.rpcMethod) && Known(codec, mem, req).None? then Some(v)
            else Known(codec, mem, req)
  {
    var key := PutKey(codec, req, LatestBlock(codec, mem.store), confirmations);
    if key.Some? {
      LookupEncoded(codec, AfterPut(codec, confirmations, mem, req, v).store, key.value, v);
    }
  }

  /** The cache object, with the handlers' checks in the order the program makes them. */
  class ResponseCache {
    var store: Store
    var statics: map<string, Value>
    const codec: Codec
    const confirmations: nat

    function Contents(): Memory
      reads this
    {
      Memory(store, statics)
    }

    constructor (codec: Codec, confirmations: nat)
      ensures Contents() == EMPTY && this.codec == codec && this.confirmations == confirmations
    {
      store, statics, this.codec, this.confirmations := map[], map[], codec, confirmations;
    }

    method Guard(input: string) returns (ok: bool)
      ensures ok <==> LatestBlock(codec, store).Some? && DecodeBlockInput(input).Some? &&
                      LatestBlock(codec, store).value > AddU64(DecodeBlockInput(input).value, confirmations)
    {
      var latest := LatestBlock(codec, store);
      if latest.None? { return false; }
      var n := DecodeBlockInput(input);
      if n.None? { return false; }
      return !(latest.value <= AddU64(n.value, confirmations));
    }

    method PutBlockByNumber(req: Req, v: Value)
      requires req.rpcMethod == "eth_getBlockByNumber"
      modifies this
      ensures Contents() == AfterPut(codec, confirmations, old(Contents()), req, v)
    {
      var p := DecodeByNumber(codec.list(req.params));
      if p.None? || IsBlockDependent(p.value.input) { return; }
      if p.value.input != "earliest" {
        var ok := Guard(p.value.input);
        if !ok { return; }
      }
      store := store[Key(p.value) := Encode(codec, v)];
    }

    method PutBlockRange(req: Req, v: Value)
      requires req.rpcMethod == "eth_getBlockRange"
      modifies this
      ensures Contents() == AfterPut(codec, confirmations, old(Contents()), req, v)
    {
      var p := DecodeRange(codec.list(req.params));
      if p.None? || IsBlockDependent(p.value.start) || IsBlockDependent(p.value.end) { return; }
      if LatestBlock(codec, store).None? { return; }
      if p.value.start != "earliest" {
        var ok := Guard(p.value.start);
        if !ok { return; }
      }
      if p.value.end != "earliest" {
        var ok := Guard(p.value.end);
        if !ok { return; }
      }
      store := store[Key(p.value) := Encode(codec, v)];
    }

    method PutCall(req: Req, v: Value)
      requires req.rpcMethod == "eth_call"
      modifies this
      ensures Contents() == AfterPut(codec, confirmations, old(Contents()), req, v)
    {
      var call := codec.call(req.params);
      if call.None? { return; }
      var (params, tag) := call.value;
      if !CallCacheable(params, tag) { return; }
      if tag != "earliest" {
        var ok := Guard(tag);
        if !ok { return; }
      }
      store := store[CallKey(params, tag) := Encode(codec, v)];
    }

    /** Dispatch by method; methods without a storing handler change nothing. */
    method PutRPC(req: Req, v: Value)
      modifies this
      ensures Contents() == AfterPut(codec, confirmations, old(Contents()), req, v)
    {
      if req.rpcMethod == "eth_getBlockByNumber" {
        PutBlockByNumber(req, v);
      } else if req.rpcMethod == "eth_getBlockRange" {
        PutBlockRange(req, v);
      } else if req.rpcMethod == "eth_call" {
        PutCall(req, v);
      } else if IsStatic(req.rpcMethod) {
        if req.rpcMethod !in statics {
          statics := statics[req.rpcMethod := v];
        }
      }
    }

    /** Reads through the compression and rebuilds a response around the stored result. */
    method GetImmutable(key: string, req: Req) returns (res: Option<Res>)
      ensures res.Some? <==> Lookup(codec, store, key).Some?
      ensures res.Some? ==> res.value == Res(req.jsonrpc, Lookup(codec, store, key), None, req.id)
    {
      if key !in store || store[key] == "" { return None; }
      var text := codec.decompress(store[key]);
      if text.None? || text.value == "" { return None; }
      var result := codec.unmarshal(text.value);
      if result.None? { return None; }
      return Some(Res(req.jsonrpc, Some(result.value), None, req.id));
    }

    method GetBlockByNumber(req: Req) returns (res: Option<Res>)
      requires req.rpcMethod == "eth_getBlockByNumber"
      ensures res == Get(codec, Contents(), req)
    {
      var p := DecodeByNumber(codec.list(req.params));
      if p.None? { return None; }
      if IsBlockDependent(p.value.input) { return None; }
      res := GetImmutable(Key(p.value), req);
    }

    method GetBlockRange(req: Req) returns (res: Option<Res>)
      requires req.rpcMethod == "eth_getBlockRange"
      ensures res == Get(codec, Contents(), req)
    {
      var p := DecodeRange(codec.list(req.params));
      if p.None? { return None; }
      if IsBlockDependent(p.value.start) || IsBlockDependent(p.value.end) { return None; }
      res := GetImmutable(Key(p.value), req);
    }

    method GetCall(req: Req) returns (res: Option<Res>)
      requires req.rpcMethod == "eth_call"
      ensures res == Get(codec, Contents(), req)
    {
      var call := codec.call(req.params);
      if call.None? { return None; }
      var (params, tag) := call.value;
      if !CallCacheable(params, tag) { return None; }
      res := GetImmutable(CallKey(params, tag), req);
    }

    method GetLastValue(key: string, req: Req) returns (res: Option<Res>)
      ensures res.Some? <==> LastValue(codec, store, key).Some?
      ensures res.Some? ==> res.value == ResultRes(req.id, codec.quantity(LastValue(codec, store, key).value))
    {
      if key !in store || store[key] == "" { return None; }
      var n := codec.parseU64(store[key]);
      if n.None? { return None; }
      return Some(ResultRes(req.id, codec.quantity(n.value)));
    }

    /** Dispatch by method. A hit is the known result under the ID of the request that asks, whichever request
        stored it; there is none for a method without handler, undecodable parameters or a moving block tag. */
    method GetRPC(req: Req) returns (res: Option<Res>)
      ensures res.Some? <==> Known(codec, Contents(), req).Some?
      ensures res.Some? ==> IsHit(req, Known(codec, Contents(), req).value, res.value)
      ensures res == Get(codec, Contents(), req)
    {
      if IsStatic(req.rpcMethod) {
        if req.rpcMethod !in statics { return None; }
        return Some(Res(req.jsonrpc, Some(statics[req.rpcMethod]), None, req.id));
      } else if req.rpcMethod == "eth_getBlockByNumber" {
        res := GetBlockByNumber(req);
      } else if req.rpcMethod == "eth_getBlockRange" {
        res := GetBlockRange(req);
      } else if req.rpcMethod == "eth_blockNumber" {
        res := GetLastValue(BLOCK_NUMBER_KEY, req);
      } else if req.rpcMethod == "eth_gasPrice" {
        res := GetLastValue(GAS_PRICE_KEY, req);
      } else if req.rpcMethod == "eth_call" {
        res := GetCall(req);
      } else {
        res := None;
      }
    }
  }
}
