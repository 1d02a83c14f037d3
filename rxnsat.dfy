/**
 * The NDC harvest: RXNSAT attribute rows with ATN = NDC from RxNorm, not
 * suppressed, give a concept its set of NDC codes.  A missing RXNSAT file
 * means no codes at all.
 */
module Rxnsat {
  import opened Wrappers
  import opened Rows

  // Column positions of the RXNSAT layout.
  const CUI := 0
  const ATN := 8
  const SatSab := 9
  const ATV := 10
  const SatSuppress := 11
  /** Rows with fewer fields are skipped. */
  const SatFields := 13

  /** A row that contributes an NDC. */
  predicate NdcRow(row: Row)
  {
    |row| >= SatFields && row[SatSab] == TargetSab && row[ATN] == "NDC" && row[SatSuppress] == "N"
    && row[CUI] != "" && row[ATV] != ""
  }

  /** The NDC map after the rows, as a left fold; a concept gets a key at its first NDC. */
  function NdcScan(rows: seq<Row>): (r: map<string, set<string>>)
    ensures forall cui :: cui in r ==> cui != "" && r[cui] != {}
  {
    if rows == [] then map[]
    else
      var before, last := NdcScan(rows[..|rows| - 1]), rows[|rows| - 1];
      if NdcRow(last) then before[last[CUI] := GetOr(before, last[CUI], {}) + {last[ATV]}] else before
  }

  lemma NdcStep(rows: seq<Row>, row: Row)
    ensures NdcScan(rows + [row]) ==
      if NdcRow(row) then NdcScan(rows)[row[CUI] := GetOr(NdcScan(rows), row[CUI], {}) + {row[ATV]}]
      else NdcScan(rows)
  {
    assert (rows + [row])[..|rows|] == rows;
  }

  /**
   * `scan_rxnsat_ndc_rxnorm`; `file` is None when RXNSAT cannot be
   * found, and the result is then empty.
   */
  method ScanRxnsatNdcRxnorm(file: Option<seq<Row>>) returns (ndcMap: map<string, set<string>>)
    ensures file.None? ==> ndcMap == map[]
    ensures file.Some? ==> ndcMap == NdcScan(file.value)
  {
    ndcMap := map[];
    if file.None? {
      return;
    }
    var rows := file.value;
    for i := 0 to |rows|
      invariant ndcMap == NdcScan(rows[..i])
    {
      var parts := rows[i];
      assert rows[..i + 1] == rows[..i] + [parts];
      NdcStep(rows[..i], parts);
      if |parts| < SatFields { continue; }
      var cui, atn, sab, atv, suppress := parts[0], parts[8], parts[9], parts[10], parts[11];
      if sab == TargetSab && atn == "NDC" && suppress == "N" && cui != "" && atv != "" {
        // the concept's set is created at its first code
        ndcMap := ndcMap[cui := GetOr(ndcMap, cui, {}) + {atv}];
      }
    }
    assert rows[..|rows|] == rows;
  }

  /** A code is listed for a concept exactly when some NDC row pairs them. */
  lemma {:induction false} NdcMembers(rows: seq<Row>, cui: string, ndc: string)
    ensures ndc in GetOr(NdcScan(rows), cui, {}) <==>
      exists i :: 0 <= i < |rows| && NdcRow(rows[i]) && rows[i][CUI] == cui && rows[i][ATV] == ndc
  {
    if rows != [] {
      var n := |rows|;
      NdcMembers(rows[..n - 1], cui, ndc);
      assert forall i :: 0 <= i < n - 1 ==> rows[..n - 1][i] == rows[i];
    }
  }
}
