/** Record normalisation (src/utils/transaction_parser.py): a raw Solana transaction
    becomes a four-key dictionary with defaults for the missing keys. Logging is left out. */
module TransactionParser {
  import opened Wrappers
  import opened Values

  /** The keys of every normalised record. */
  const ParsedKeys: set<string> := {"signature", "instructions", "block_time", "status"}

  /** The raw keys the normalised record is read from. */
  const SourceKeys: set<string> := {"signature", "instructions", "blockTime", "status"}

  function ParseSolanaTx(rawTxData: Record): (parsed: Record)
    ensures parsed.Keys == ParsedKeys
    ensures parsed["signature"] == (if "signature" in rawTxData then rawTxData["signature"] else VNone)
    ensures parsed["instructions"] == (if "instructions" in rawTxData then rawTxData["instructions"] else VList([]))
    ensures parsed["block_time"] == (if "blockTime" in rawTxData then rawTxData["blockTime"] else VNone)
    ensures parsed["status"] == (if "status" in rawTxData then rawTxData["status"] else VStr("unknown"))
  {
    map[
      "signature" := Get(rawTxData, "signature"),
      "instructions" := GetOr(rawTxData, "instructions", VList([])),
      "block_time" := Get(rawTxData, "blockTime"),
      "status" := GetOr(rawTxData, "status", VStr("unknown"))
    ]
  }

  /** `len(raw_tx_data.get("instructions", []))` raises: the key holds None or an integer. */
  predicate InstructionsHaveNoLength(rawTxData: Record) {
    "instructions" in rawTxData && (rawTxData["instructions"].VNone? || rawTxData["instructions"].VInt?)
  }

  /** `handle_irregular_tx`: the partial-fill check only logs, but the multi-instruction check
      takes the length of the instructions, which raises TypeError for None or an integer;
      otherwise the result is the plain parse. */
  function HandleIrregularTx(rawTxData: Record): (r: Result<Record>)
    ensures r.Err? <==> InstructionsHaveNoLength(rawTxData)
    ensures r.Err? ==> r.error == TypeError
    ensures r.Ok? ==> r.value == ParseSolanaTx(rawTxData)
  {
    match Len(GetOr(rawTxData, "instructions", VList([])))
    case None => Err(TypeError)
    case Some(_) => Ok(ParseSolanaTx(rawTxData))
  }

  /** Only the four source keys matter: two raw records that agree on them (and may differ
      in any other key, `partialFill` for one) normalise to the same record. */
  lemma ParseDependsOnSourceKeysOnly(a: Record, b: Record)
    requires forall k :: k in SourceKeys ==> (k in a <==> k in b) && (k in a ==> a[k] == b[k])
    ensures ParseSolanaTx(a) == ParseSolanaTx(b)
  {
    assert "signature" in SourceKeys && "instructions" in SourceKeys;
    assert "blockTime" in SourceKeys && "status" in SourceKeys;
  }

  /** A key outside the four source keys, added or changed, never reaches the output. */
  lemma ExtraKeyDropped(raw: Record, k: string, v: Value)
    requires k !in SourceKeys
    ensures ParseSolanaTx(raw[k := v]) == ParseSolanaTx(raw)
    ensures k !in ParsedKeys ==> k !in ParseSolanaTx(raw[k := v])
  {
    ParseDependsOnSourceKeysOnly(raw[k := v], raw);
  }
}
