/** The copy of the parser kept in tests/test_transaction_parser.py, with its two extra
    wrappers. Like the library's `handle_irregular_tx`, `handle_irregular_tx` and
    `parse_multi_instruction_tx` take the length of the instructions and so raise TypeError
    when they are None or an integer; `handle_partial_fill_tx` only tests a key. The copy's
    parse reads the four keys into locals first; the dictionary it builds is the same. */
module TestTransactionParser {
  import opened Wrappers
  import opened Values
  import TransactionParser

  function ParseSolanaTx(rawTxData: Record): (parsed: Record)
    ensures parsed.Keys == TransactionParser.ParsedKeys
    ensures "instructions" !in rawTxData ==> parsed["instructions"] == VList([])
    ensures "status" !in rawTxData ==> parsed["status"] == VStr("unknown")
  {
    var signature := Get(rawTxData, "signature");
    var instructions := GetOr(rawTxData, "instructions", VList([]));
    var blockTime := Get(rawTxData, "blockTime");
    var status := GetOr(rawTxData, "status", VStr("unknown"));
    map["signature" := signature, "instructions" := instructions, "block_time" := blockTime, "status" := status]
  }

  function HandleIrregularTx(rawTxData: Record): (r: Result<Record>)
    ensures r.Err? <==> TransactionParser.InstructionsHaveNoLength(rawTxData)
    ensures r.Err? ==> r.error == TypeError
    ensures r.Ok? ==> r.value == ParseSolanaTx(rawTxData)
  {
    var instructions := GetOr(rawTxData, "instructions", VList([]));
    if Len(instructions).None? then Err(TypeError) else Ok(ParseSolanaTx(rawTxData))
  }

  function ParseMultiInstructionTx(rawTxData: Record): (r: Result<Record>)
    ensures r.Err? <==> TransactionParser.InstructionsHaveNoLength(rawTxData)
    ensures r.Err? ==> r.error == TypeError
    ensures r.Ok? ==> r.value == ParseSolanaTx(rawTxData)
  {
    var instructions := GetOr(rawTxData, "instructions", VList([]));
    match Len(instructions)
    case Some(_) => Ok(ParseSolanaTx(rawTxData))
    case None => Err(TypeError)
  }

  function HandlePartialFillTx(rawTxData: Record): (parsed: Record)
    ensures parsed == ParseSolanaTx(rawTxData)
  {
    ParseSolanaTx(rawTxData)
  }

  /** The test copy agrees with the library on every input: the plain parse and the
      partial-fill wrapper give the library's parse; both length-taking wrappers raise
      exactly when the library's `handle_irregular_tx` raises and return the same record
      otherwise. */
  lemma CopyAgreesWithLibrary(rawTxData: Record)
    ensures ParseSolanaTx(rawTxData) == TransactionParser.ParseSolanaTx(rawTxData)
    ensures HandlePartialFillTx(rawTxData) == TransactionParser.ParseSolanaTx(rawTxData)
    ensures HandleIrregularTx(rawTxData) == TransactionParser.HandleIrregularTx(rawTxData)
    ensures ParseMultiInstructionTx(rawTxData) == TransactionParser.HandleIrregularTx(rawTxData)
    ensures ParseMultiInstructionTx(rawTxData).Ok? ==>
      ParseMultiInstructionTx(rawTxData).value == TransactionParser.ParseSolanaTx(rawTxData)
  {
  }
}
