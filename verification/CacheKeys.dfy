/** The parameters of cacheable methods, and the keys under which their responses are stored. */
module CacheKeys {
  import opened Common

  /** A parameter as far as the handlers look at it. */
  datatype Json = JString(s: string) | JBool(b: bool) | JOther

  datatype CallParams = CallParams(from: string, to: string, gas: string, gasPrice: string, value: string, data: string)

  // ---- block numbers ----

  function Nibble(c: char): Option<nat> {
    if '0' <= c <= '9' then Some((c - '0') as nat)
    else if 'A' <= c <= 'F' then Some((c - 'A') as nat + 10)
    else if 'a' <= c <= 'f' then Some((c - 'a') as nat + 10)
    else None
  }

  function ParseHex(raw: string): Option<nat> {
    if raw == "" then Some(0)
    else
      var high, low := ParseHex(raw[..|raw| - 1]), Nibble(raw[|raw| - 1]);
      if high.Some? && low.Some? then Some(high.value * 16 + low.value) else None
  }

  /** A quantity: 0x, no leading zeros, and within 64 bits. */
  function DecodeBlockInput(input: string): Option<nat> {
    if |input| < 3 || input[0] != '0' || (input[1] != 'x' && input[1] != 'X') then None
    else
      var raw := input[2..];
      if |raw| > 1 && raw[0] == '0' then None
      else
        var n := ParseHex(raw);
        if n.Some? && n.value < U64_MODULUS then n else None
  }

  predicate IsBlockDependent(s: string) {
    s == "latest" || s == "pending"
  }

  predicate ValidBlockInput(s: string) {
    s == "earliest" || s == "pending" || s == "latest" || DecodeBlockInput(s).Some?
  }

  /** The block a cacheable input names: "earliest" is the genesis block. */
  function BlockNumber(s: string): nat
    requires ValidBlockInput(s) && !IsBlockDependent(s)
  {
    if s == "earliest" then 0 else DecodeBlockInput(s).value
  }

  // ---- decoding ----

  datatype Params =
    | ByNumber(input: string, full: bool)
    | Range(start: string, end: string, full: bool)

  function DecodeByNumber(list: Option<seq<Json>>): (p: Option<Params>)
    ensures p.Some? ==> p.value.ByNumber? && ValidBlockInput(p.value.input)
  {
    if list.Some? && |list.value| == 2 && list.value[0].JString? && list.value[1].JBool? &&
       ValidBlockInput(list.value[0].s)
    then Some(ByNumber(list.value[0].s, list.value[1].b)) else None
  }

  function DecodeRange(list: Option<seq<Json>>): (p: Option<Params>)
    ensures p.Some? ==> p.value.Range? && ValidBlockInput(p.value.start) && ValidBlockInput(p.value.end)
  {
    if list.Some? && |list.value| == 3 && list.value[0].JString? && list.value[1].JString? && list.value[2].JBool? &&
       ValidBlockInput(list.value[0].s) && ValidBlockInput(list.value[1].s)
    then Some(Range(list.value[0].s, list.value[1].s, list.value[2].b)) else None
  }

  predicate ValidParams(p: Params) {
    match p
    case ByNumber(input, _) => ValidBlockInput(input)
    case Range(start, end, _) => ValidBlockInput(start) && ValidBlockInput(end)
  }

  predicate Cacheable(p: Params) {
    match p
    case ByNumber(input, _) => !IsBlockDependent(input)
    case Range(start, end, _) => !IsBlockDependent(start) && !IsBlockDependent(end)
  }

  predicate CallCacheable(c: CallParams, tag: string) {
    && !IsBlockDependent(tag)
    && c.from == "" && c.gas == ""
    && (c.value == "" || c.value == "0x0")
  }

  // ---- keys ----

  function BoolText(b: bool): string {
    if b then "true" else "false"
  }

  const BY_NUMBER_PREFIX := "method:eth_getBlockByNumber:"
  const RANGE_PREFIX := "method:eth_getBlockRange:"
  const CALL_PREFIX := "method:eth_call:"
  const LVC_PREFIX := "lvc:"
  const BLOCK_NUMBER_KEY := LVC_PREFIX + "block_number"
  const GAS_PRICE_KEY := LVC_PREFIX + "gas_price"

  function Key(p: Params): string {
    match p
    case ByNumber(input, full) => BY_NUMBER_PREFIX + (input + ":" + BoolText(full))
    case Range(start, end, full) => RANGE_PREFIX + (start + ":" + (end + ":" + BoolText(full)))
  }

  function CallKey(c: CallParams, tag: string): string {
    CALL_PREFIX + (c.to + ":" + c.data + ":" + tag)
  }

  lemma {:induction false} HexHasNoColon(raw: string)
    requires ParseHex(raw).Some?
    ensures ':' !in raw
  {
    if raw != "" {
      HexHasNoColon(raw[..|raw| - 1]);
      assert raw == raw[..|raw| - 1] + [raw[|raw| - 1]];
    }
  }

  lemma InputHasNoColon(s: string)
    requires ValidBlockInput(s)
    ensures ':' !in s
  {
    if DecodeBlockInput(s).Some? {
      HexHasNoColon(s[2..]);
      assert s == s[..2] + s[2..];
    }
  }

  /** A colon-free head can be read back from head ":" tail. */
  lemma SplitAtColon(a: string, b: string, c: string, d: string)
    requires ':' !in a && ':' !in c && a + ":" + b == c + ":" + d
    ensures a == c && b == d
  {
    var s := a + ":" + b;
    assert s[|a|] == ':' && s[|c|] == ':';
    assert |a| == |c|;
    assert a == s[..|a|] == c;
    assert b == s[|a| + 1..] == d;
  }

  lemma SamePrefix(prefix: string, a: string, b: string)
    requires prefix + a == prefix + b
    ensures a == b
  {
    assert a == (prefix + a)[|prefix|..];
    assert b == (prefix + b)[|prefix|..];
  }

  predicate StartsWith(s: string, prefix: string) {
    |prefix| <= |s| && s[..|prefix|] == prefix
  }

  /** Texts that start with prefixes that differ somewhere are different. */
  lemma DifferentPrefixes(s: string, t: string, p: string, q: string, i: nat)
    requires StartsWith(s, p) && StartsWith(t, q) && i < |p| && i < |q| && p[i] != q[i]
    ensures s != t
  {
    assert s[..|p|][i] == s[i] && t[..|q|][i] == t[i];
  }

  /** The keys of the two block handlers determine the decoded parameters. */
  lemma KeysDetermineParams(p: Params, q: Params)
    requires ValidParams(p) && ValidParams(q) && Key(p) == Key(q)
    ensures p == q
  {
    match (p, q)
    case (ByNumber(a, f), ByNumber(b, g)) =>
      SamePrefix(BY_NUMBER_PREFIX, a + ":" + BoolText(f), b + ":" + BoolText(g));
      InputHasNoColon(a);
      InputHasNoColon(b);
      SplitAtColon(a, BoolText(f), b, BoolText(g));
    case (Range(a, b, f), Range(c, d, g)) =>
      SamePrefix(RANGE_PREFIX, a + ":" + (b + ":" + BoolText(f)), c + ":" + (d + ":" + BoolText(g)));
      InputHasNoColon(a);
      InputHasNoColon(c);
      SplitAtColon(a, b + ":" + BoolText(f), c, d + ":" + BoolText(g));
      InputHasNoColon(b);
      InputHasNoColon(d);
      SplitAtColon(b, BoolText(f), d, BoolText(g));
    case _ =>
      KeyPrefixes(p);
      KeyPrefixes(q);
      DifferentPrefixes(Key(p), Key(q), PrefixOf(p), PrefixOf(q), 20);
  }

  function PrefixOf(p: Params): string {
    if p.ByNumber? then BY_NUMBER_PREFIX else RANGE_PREFIX
  }

  lemma KeyPrefixes(p: Params)
    ensures StartsWith(Key(p), PrefixOf(p))
  {
  }

  /** No block key is an eth_call key or a last-value key, and no eth_call key is a last-value key. */
  lemma HandlersDoNotShareKeys(p: Params, c: CallParams, tag: string)
    ensures Key(p) != CallKey(c, tag)
    ensures Key(p) != BLOCK_NUMBER_KEY && Key(p) != GAS_PRICE_KEY
    ensures CallKey(c, tag) != BLOCK_NUMBER_KEY && CallKey(c, tag) != GAS_PRICE_KEY
    ensures Key(p) != "" && CallKey(c, tag) != ""
  {
    KeyPrefixes(p);
    assert StartsWith(CallKey(c, tag), CALL_PREFIX);
    assert StartsWith(BLOCK_NUMBER_KEY, LVC_PREFIX) && StartsWith(GAS_PRICE_KEY, LVC_PREFIX);
    DifferentPrefixes(Key(p), CallKey(c, tag), PrefixOf(p), CALL_PREFIX, 11);
    DifferentPrefixes(Key(p), BLOCK_NUMBER_KEY, PrefixOf(p), LVC_PREFIX, 0);
    DifferentPrefixes(Key(p), GAS_PRICE_KEY, PrefixOf(p), LVC_PREFIX, 0);
    DifferentPrefixes(CallKey(c, tag), BLOCK_NUMBER_KEY, CALL_PREFIX, LVC_PREFIX, 0);
    DifferentPrefixes(CallKey(c, tag), GAS_PRICE_KEY, CALL_PREFIX, LVC_PREFIX, 0);
  }
}
