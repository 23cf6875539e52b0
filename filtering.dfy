/** The shape both parsers' `filter_by_sources` share: one pass over the records that appends
    each record the source test accepts, and stops at the first test that raises. */
module Filtering {
  import opened Wrappers
  import opened Values

  /** The result of the pass over the first `n` records. */
  function FilterPrefix(records: seq<Dict>, keep: Dict -> Result<bool>, n: nat): Result<seq<Dict>>
    requires n <= |records|
  {
    if n == 0 then Ok([])
    else match FilterPrefix(records, keep, n - 1)
      case Err(e) => Err(e)
      case Ok(acc) =>
        match keep(records[n - 1])
        case Err(e) => Err(e)
        case Ok(b) => if b then Ok(acc + [records[n - 1]]) else Ok(acc)
  }

  function Filter(records: seq<Dict>, keep: Dict -> Result<bool>): Result<seq<Dict>> {
    FilterPrefix(records, keep, |records|)
  }

  /** The positions among the first `n` whose record the test accepts, in increasing order. */
  function KeptPositions(records: seq<Dict>, keep: Dict -> Result<bool>, n: nat): (r: seq<nat>)
    requires n <= |records|
    ensures forall k :: 0 <= k < |r| ==> r[k] < n
    ensures forall k, l :: 0 <= k < l < |r| ==> r[k] < r[l]
  {
    if n == 0 then []
    else
      var prev := KeptPositions(records, keep, n - 1);
      if keep(records[n - 1]) == Ok(true) then prev + [n - 1] else prev
  }

  /** The pass fails exactly when the test raises on some record. */
  lemma {:induction false} FilterPrefixOk(records: seq<Dict>, keep: Dict -> Result<bool>, n: nat)
    requires n <= |records|
    ensures FilterPrefix(records, keep, n).Ok? <==> forall i :: 0 <= i < n ==> keep(records[i]).Ok?
  {
    if n > 0 {
      FilterPrefixOk(records, keep, n - 1);
    }
  }

  /** A successful pass gives exactly the accepted records, in their order: the output is
      the subsequence at the accepted positions, so no record appears twice. */
  lemma {:induction false} FilterPrefixPositions(records: seq<Dict>, keep: Dict -> Result<bool>, n: nat)
    requires n <= |records| && FilterPrefix(records, keep, n).Ok?
    ensures var r := FilterPrefix(records, keep, n).value;
      var ps := KeptPositions(records, keep, n);
      |r| == |ps| && forall k :: 0 <= k < |r| ==> r[k] == records[ps[k]]
    ensures forall i :: 0 <= i < n ==> (i in KeptPositions(records, keep, n) <==> keep(records[i]) == Ok(true))
  {
    if n > 0 {
      FilterPrefixPositions(records, keep, n - 1);
    }
  }

  /** A record is in the output exactly when the test accepts it. */
  lemma FilterKeepsAccepted(records: seq<Dict>, keep: Dict -> Result<bool>)
    requires Filter(records, keep).Ok?
    ensures forall x :: x in Filter(records, keep).value <==> x in records && keep(x) == Ok(true)
  {
    var r := Filter(records, keep).value;
    var ps := KeptPositions(records, keep, |records|);
    FilterPrefixPositions(records, keep, |records|);
    forall x ensures x in r <==> x in records && keep(x) == Ok(true) {
      if x in r {
        var k :| 0 <= k < |r| && r[k] == x;
        assert records[ps[k]] == x;
        assert ps[k] in ps;
      }
      if x in records && keep(x) == Ok(true) {
        var i :| 0 <= i < |records| && records[i] == x;
        assert i in ps;
        var k :| 0 <= k < |ps| && ps[k] == i;
        assert r[k] == x;
      }
    }
  }

  /** Filtering what a filter let through changes nothing. */
  lemma FilterIdempotent(records: seq<Dict>, keep: Dict -> Result<bool>)
    requires Filter(records, keep).Ok?
    ensures Filter(Filter(records, keep).value, keep) == Filter(records, keep)
  {
    var r := Filter(records, keep).value;
    FilterKeepsAccepted(records, keep);
    AllAcceptedPass(r, keep, |r|);
    assert r[..|r|] == r;
  }

  lemma {:induction false} AllAcceptedPass(records: seq<Dict>, keep: Dict -> Result<bool>, n: nat)
    requires n <= |records|
    requires forall x :: x in records ==> keep(x) == Ok(true)
    ensures FilterPrefix(records, keep, n) == Ok(records[..n])
  {
    if n > 0 {
      AllAcceptedPass(records, keep, n - 1);
      assert records[..n] == records[..n - 1] + [records[n - 1]];
    }
  }

  /** Once the pass over a prefix fails, the whole pass fails the same way. */
  lemma {:induction false} FilterErrPersists(records: seq<Dict>, keep: Dict -> Result<bool>, n: nat, m: nat)
    requires n <= m <= |records| && FilterPrefix(records, keep, n).Err?
    ensures FilterPrefix(records, keep, m) == FilterPrefix(records, keep, n)
    decreases m - n
  {
    if n < m {
      FilterErrPersists(records, keep, n, m - 1);
    }
  }

  /** The loop of `filter_by_sources` for a given source test. */
  method FilterRecords(records: seq<Dict>, keep: Dict -> Result<bool>) returns (r: Result<seq<Dict>>)
    ensures r == Filter(records, keep)
  {
    var kept: seq<Dict> := [];
    for i := 0 to |records|
      invariant FilterPrefix(records, keep, i) == Ok(kept)
    {
      var matched := keep(records[i]);
      if matched.Err? {
        FilterErrPersists(records, keep, i + 1, |records|);
        return Err(matched.error);
      }
      if matched.value {
        kept := kept + [records[i]];
      }
    }
    r := Ok(kept);
  }
}
