/**
 * One line of a pipe-delimited RRF extract becomes a row of fields: the
 * trailing line feeds are stripped and the rest is split at every "|".
 * Every scan then skips rows that have fewer fields than its table's
 * layout needs.
 */
module Rows {

  type Row = seq<string>

  const Delimiter: char := '|'

  /** The source vocabulary every scan keeps (SAB). */
  const TargetSab := "RXNORM"

  /** `s.rstrip("\n")`: drops every trailing line feed and nothing else. */
  function RStripNewlines(s: string): (r: string)
    ensures r <= s
    ensures r == [] || r[|r| - 1] != '\n'
    ensures forall i :: |r| <= i < |s| ==> s[i] == '\n'
  {
    if s != [] && s[|s| - 1] == '\n' then RStripNewlines(s[..|s| - 1]) else s
  }

  /** `s.split(d)`: the pieces between occurrences of `d`; never empty. */
  function Split(s: string, d: char): (fields: seq<string>)
    ensures |fields| >= 1
  {
    if s == [] then [""]
    else
      var rest := Split(s[1..], d);
      if s[0] == d then [""] + rest
      else [[s[0]] + rest[0]] + rest[1..]
  }

  /** `d.join(fields)`, the inverse of Split. */
  function Join(fields: seq<string>, d: char): string
    requires |fields| >= 1
  {
    if |fields| == 1 then fields[0] else fields[0] + [d] + Join(fields[1..], d)
  }

  /** Number of occurrences of `d` in `s`. */
  function Occurrences(s: string, d: char): nat
  {
    if s == [] then 0 else (if s[0] == d then 1 else 0) + Occurrences(s[1..], d)
  }

  /** The fields of one line of an RRF file. */
  function ParseLine(line: string): (r: Row)
    ensures |r| >= 1
    ensures Join(r, Delimiter) == RStripNewlines(line)
    ensures forall i :: 0 <= i < |r| ==> Delimiter !in r[i]
  {
    SplitJoin(RStripNewlines(line), Delimiter);
    SplitFieldsHaveNoDelimiter(RStripNewlines(line), Delimiter);
    Split(RStripNewlines(line), Delimiter)
  }

  /** Splitting loses nothing: joining the fields back gives the original text. */
  lemma {:induction false} SplitJoin(s: string, d: char)
    ensures Join(Split(s, d), d) == s
  {
    if s != [] {
      var rest := Split(s[1..], d);
      SplitJoin(s[1..], d);
      if s[0] == d {
        assert ([""] + rest)[1..] == rest;
      } else if |rest| == 1 {
        assert [[s[0]] + rest[0]] + rest[1..] == [[s[0]] + rest[0]];
      } else {
        var fields := [[s[0]] + rest[0]] + rest[1..];
        assert fields[1..] == rest[1..];
        assert Join(rest, d) == rest[0] + [d] + Join(rest[1..], d);
      }
    }
  }

  /** No field contains the delimiter. */
  lemma {:induction false} SplitFieldsHaveNoDelimiter(s: string, d: char)
    ensures forall i :: 0 <= i < |Split(s, d)| ==> d !in Split(s, d)[i]
  {
    if s != [] {
      SplitFieldsHaveNoDelimiter(s[1..], d);
      var rest := Split(s[1..], d);
      if s[0] != d {
        assert d !in rest[0];
        var fields := Split(s, d);
        forall i | 0 <= i < |fields| ensures d !in fields[i] {
          if i > 0 { assert fields[i] == rest[i]; }
        }
      }
    }
  }

  /** There is one field more than there are delimiters. */
  lemma {:induction false} SplitFieldCount(s: string, d: char)
    ensures |Split(s, d)| == Occurrences(s, d) + 1
  {
    if s != [] {
      SplitFieldCount(s[1..], d);
    }
  }

  /**
   * The length guard `len(parts) < n` of every scan, in terms of the line:
   * a row is kept exactly when its stripped line holds at least n - 1 pipes.
   */
  lemma LengthGuard(line: string, n: nat)
    requires n >= 1
    ensures |ParseLine(line)| >= n <==> Occurrences(RStripNewlines(line), Delimiter) >= n - 1
  {
    SplitFieldCount(RStripNewlines(line), Delimiter);
  }
}
