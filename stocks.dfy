/**
 * The stock list: documents of the `stocks` collection filtered through the stock schema, and the
 * random pick that shuffles the list in place and takes a prefix. The client and the server
 * modules hold the same code; it is modelled once.
 */
module Stocks {
  import opened Wrappers
  import opened JsonValues

  /** A document of the collection: its id and its data fields. */
  datatype Doc = Doc(id: string, data: map<string, Json>)

  /** A stock that passed the schema; the id is the ticker. */
  datatype Stock = Stock(id: string, companyName: string, bundleGcsPath: string)

  /**
   * The schema check of one document: the id comes from the document, the two other fields
   * must be strings in its data.
   */
  function ParseStock(d: Doc): (r: Option<Stock>)
    ensures r.Some? <==> StringField(d.data, "company_name").Some? && StringField(d.data, "bundle_gcs_path").Some?
    ensures r.Some? ==> r.value.id == d.id
    ensures r.Some? ==> d.data["company_name"] == JString(r.value.companyName)
    ensures r.Some? ==> d.data["bundle_gcs_path"] == JString(r.value.bundleGcsPath)
  {
    match (StringField(d.data, "company_name"), StringField(d.data, "bundle_gcs_path"))
    case (Some(name), Some(path)) => Some(Stock(d.id, name, path))
    case _ => None
  }

  /** The documents that pass the schema, in snapshot order. */
  function ValidStocks(docs: seq<Doc>): seq<Stock>
    decreases |docs|
  {
    if |docs| == 0 then []
    else
      var last := docs[|docs| - 1];
      ValidStocks(docs[..|docs| - 1]) + (match ParseStock(last) case Some(s) => [s] case None => [])
  }

  /** `getStocks` / `getStocksAdmin`: each document of the snapshot is checked and pushed if it passes. */
  method GetStocks(docs: seq<Doc>) returns (stocks: seq<Stock>)
    ensures stocks == ValidStocks(docs)
  {
    stocks := [];
    for i := 0 to |docs|
      invariant stocks == ValidStocks(docs[..i])
    {
      assert docs[..i + 1][..i] == docs[..i];
      var validation := ParseStock(docs[i]);
      if validation.Some? {
        stocks := stocks + [validation.value];
      }
    }
    assert docs[..|docs|] == docs;
  }

  /** The filter maps concatenation of snapshots to concatenation of results: the order is kept. */
  lemma {:induction false} ValidStocksAppend(a: seq<Doc>, b: seq<Doc>)
    ensures ValidStocks(a + b) == ValidStocks(a) + ValidStocks(b)
    decreases |b|
  {
    if |b| == 0 {
      assert a + b == a;
    } else {
      var b' := b[..|b| - 1];
      assert (a + b)[..|a + b| - 1] == a + b';
      assert (a + b)[|a + b| - 1] == b[|b| - 1];
      ValidStocksAppend(a, b');
    }
  }

  /** A kept stock is exactly the parse of some document of the snapshot. */
  lemma {:induction false} ValidStocksMembers(docs: seq<Doc>, s: Stock)
    ensures s in ValidStocks(docs) <==> exists d :: d in docs && ParseStock(d) == Some(s)
    decreases |docs|
  {
    if |docs| > 0 {
      var init := docs[..|docs| - 1];
      var last := docs[|docs| - 1];
      ValidStocksMembers(init, s);
      assert docs == init + [last];
      if exists d :: d in docs && ParseStock(d) == Some(s) {
        var d :| d in docs && ParseStock(d) == Some(s);
        if d != last {
          assert d in init;
        }
      }
    }
  }

  /** The filter drops nothing when every document passes, and keeps at most one stock per document. */
  lemma {:induction false} ValidStocksLength(docs: seq<Doc>)
    ensures |ValidStocks(docs)| <= |docs|
    ensures (forall k :: 0 <= k < |docs| ==> ParseStock(docs[k]).Some?) ==> |ValidStocks(docs)| == |docs|
    decreases |docs|
  {
    if |docs| > 0 {
      ValidStocksLength(docs[..|docs| - 1]);
    }
  }

  /**
   * The in-place shuffle: for `i` from the last index down to 1, swap `a[i]` with `a[j]` for a
   * random `j` in `[0, i]`. The draw is an arbitrary index in that range.
   */
  method Shuffle(a: array<Stock>)
    modifies a
    ensures multiset(a[..]) == multiset(old(a[..]))
  {
    var i := a.Length - 1;
    while i > 0
      invariant -1 <= i < a.Length
      invariant multiset(a[..]) == multiset(old(a[..]))
      decreases i
    {
      var j :| 0 <= j <= i;
      a[i], a[j] := a[j], a[i];
      i := i - 1;
    }
  }

  /** The end index of `slice(0, count)` on a list of length `n`: a negative count counts from the end. */
  function SliceEnd(n: nat, count: int): (e: nat)
    ensures e <= n
    ensures count >= 0 ==> e == if count <= n then count else n
    ensures count < 0 ==> e == if n + count >= 0 then n + count else 0
  {
    if count >= 0 then (if count <= n then count else n)
    else if n + count >= 0 then n + count else 0
  }

  /**
   * `getRandomStocks`: the valid stocks, shuffled, cut to `count`. The result has `min(count, n)`
   * entries for a non-negative count, each taken from the valid stocks no more often than it
   * occurs there; when the count covers them all it is a permutation of them.
   */
  method GetRandomStocks(docs: seq<Doc>, count: int) returns (r: seq<Stock>)
    ensures |r| == SliceEnd(|ValidStocks(docs)|, count)
    ensures multiset(r) <= multiset(ValidStocks(docs))
    ensures count >= |ValidStocks(docs)| ==> multiset(r) == multiset(ValidStocks(docs))
  {
    var all := GetStocks(docs);
    var a := new Stock[|all|](k requires 0 <= k < |all| => all[k]);
    assert a[..] == all;
    Shuffle(a);
    var end := SliceEnd(a.Length, count);
    r := a[..end];
    assert a[..] == a[..end] + a[end..];
    assert multiset(a[..]) == multiset(r) + multiset(a[end..]);
    if count >= |all| {
      assert a[end..] == [];
    }
  }
}
