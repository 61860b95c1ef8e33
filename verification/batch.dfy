/** `scrape_csv_file`: scraping every URL listed in a CSV file and combining
    the per-URL results into one text. */
module Batch {
  import opened Wrappers
  import opened PyStr
  import opened Scraper

  /** One record as `csv.reader` gives it; a blank line is the empty record. */
  type Row = seq<string>

  /** A URL paired with the result of scraping it. */
  datatype Entry = Entry(url: string, result: Option<string>)

  /** The first field of every non-empty row, in row order. */
  function Urls(rows: seq<Row>): (urls: seq<string>)
    ensures |urls| <= |rows|
    ensures forall i :: 0 <= i < |rows| && rows[i] != [] ==> rows[i][0] in urls
  {
    if |rows| == 0 then []
    else (if rows[0] == [] then [] else [rows[0][0]]) + Urls(rows[1..])
  }

  /** Reading one more row adds its first field at the end, unless the row
      is empty. */
  lemma {:induction false} UrlsAppendRow(rows: seq<Row>, row: Row)
    ensures Urls(rows + [row]) == Urls(rows) + (if row == [] then [] else [row[0]])
  {
    if |rows| == 0 {
      assert rows + [row] == [row];
    } else {
      assert (rows + [row])[1..] == rows[1..] + [row];
      UrlsAppendRow(rows[1..], row);
    }
  }

  /** The positions of the non-empty rows, in increasing order. */
  function KeptRows(rows: seq<Row>): (idx: seq<nat>)
    ensures forall k :: 0 <= k < |idx| ==> idx[k] < |rows| && rows[idx[k]] != []
    ensures forall k, l :: 0 <= k < l < |idx| ==> idx[k] < idx[l]
  {
    if |rows| == 0 then []
    else
      var n := |rows| - 1;
      var front := KeptRows(rows[..n]);
      front + (if rows[n] == [] then [] else [n])
  }

  /** Every non-empty row is kept. */
  lemma {:induction false} KeptRowsComplete(rows: seq<Row>)
    ensures forall i :: 0 <= i < |rows| && rows[i] != [] ==> i in KeptRows(rows)
  {
    if |rows| > 0 {
      var n := |rows| - 1;
      KeptRowsComplete(rows[..n]);
      forall i | 0 <= i < n && rows[i] != [] ensures i in KeptRows(rows) {
        assert rows[..n][i] == rows[i];
      }
    }
  }

  /** There are as many URLs as kept rows, and the k-th URL is the first
      field of the k-th kept row. */
  lemma {:induction false} UrlsAtKeptRows(rows: seq<Row>)
    ensures |Urls(rows)| == |KeptRows(rows)|
    ensures forall k :: 0 <= k < |Urls(rows)| ==> Urls(rows)[k] == rows[KeptRows(rows)[k]][0]
  {
    if |rows| > 0 {
      var n := |rows| - 1;
      var front := rows[..n];
      UrlsAtKeptRows(front);
      UrlsAppendRow(front, rows[n]);
      assert front + [rows[n]] == rows;
    }
  }

  /** The URLs are exactly the first fields of the non-empty rows, one per
      such row, in row order; a row whose first field is "" is kept too.
      This gathers `KeptRowsComplete` and `UrlsAtKeptRows`, proved apart
      because each is an induction of its own, into one statement. */
  lemma UrlsAreFirstFields(rows: seq<Row>)
    ensures |Urls(rows)| == |KeptRows(rows)|
    ensures forall k :: 0 <= k < |Urls(rows)| ==> Urls(rows)[k] == rows[KeptRows(rows)[k]][0]
    ensures forall i :: 0 <= i < |rows| && rows[i] != [] ==> i in KeptRows(rows)
  {
    KeptRowsComplete(rows);
    UrlsAtKeptRows(rows);
  }

  /** Each URL with the result of `scrape_website`, in URL order; `fetch`
      stands for the network and the HTML parser. */
  function Entries(urls: seq<string>, fetch: string -> Response): (es: seq<Entry>)
    ensures |es| == |urls|
    ensures forall k :: 0 <= k < |es| ==> es[k].url == urls[k]
    ensures forall k :: 0 <= k < |es| ==> (es[k].result.Some? <==> fetch(urls[k]).Fetched?)
  {
    seq(|urls|, k requires 0 <= k < |urls| => Entry(urls[k], ScrapeWebsite(fetch(urls[k]))))
  }

  /** Scraping one more URL adds its entry at the end. */
  lemma EntriesAppend(urls: seq<string>, url: string, fetch: string -> Response)
    ensures Entries(urls + [url], fetch) == Entries(urls, fetch) + [Entry(url, ScrapeWebsite(fetch(url)))]
  {
    var l := Entries(urls + [url], fetch);
    var r := Entries(urls, fetch) + [Entry(url, ScrapeWebsite(fetch(url)))];
    assert |l| == |r|;
    forall k | 0 <= k < |l| ensures l[k] == r[k] {
      if k < |urls| {
        assert (urls + [url])[k] == urls[k];
      }
    }
  }

  /** The block of one URL: the URL, a colon, a newline and `str(result)`. */
  function Block(e: Entry): (r: string)
    ensures |r| >= |e.url| + 2 && r[..|e.url| + 2] == e.url + ":\n"
    ensures e.result.None? ==> r == e.url + ":\nNone"
  {
    e.url + ":\n" + Show(e.result)
  }

  /** The blocks of all entries joined by blank lines. */
  function Combine(es: seq<Entry>): (r: string)
    ensures r == "" <==> es == []
    ensures es != [] ==> |r| >= |es[0].url| + 2 && r[..|es[0].url| + 2] == es[0].url + ":\n"
  {
    Join("\n\n", seq(|es|, k requires 0 <= k < |es| => Block(es[k])))
  }

  /** The text `scrape_csv_file` displays for the given rows. */
  function BatchReport(rows: seq<Row>, fetch: string -> Response): (r: string)
    ensures r == "" <==> Urls(rows) == []
  {
    Combine(Entries(Urls(rows), fetch))
  }

  /** The loop over the CSV rows: skip empty rows, scrape the first field of
      the others, and collect the (url, result) pairs in order. */
  method CollectResults(rows: seq<Row>, fetch: string -> Response) returns (results: seq<Entry>)
    ensures results == Entries(Urls(rows), fetch)
  {
    results := [];
    var i := 0;
    while i < |rows|
      invariant 0 <= i <= |rows|
      invariant results == Entries(Urls(rows[..i]), fetch)
    {
      var row := rows[i];
      UrlsAppendRow(rows[..i], row);
      assert rows[..i + 1] == rows[..i] + [row];
      if row != [] {
        var url := row[0];
        var result := ScrapeWebsite(fetch(url));
        EntriesAppend(Urls(rows[..i]), url, fetch);
        results := results + [Entry(url, result)];
      }
      i := i + 1;
    }
    assert rows[..i] == rows;
  }

  /** `scrape_csv_file` after the file is read: the combined text of all
      non-empty rows. */
  method ScrapeCsvFile(rows: seq<Row>, fetch: string -> Response) returns (combined: string)
    ensures combined == BatchReport(rows, fetch)
  {
    var results := CollectResults(rows, fetch);
    combined := Combine(results);
  }

  /** One more entry adds its block after a blank line, or alone when it is
      the first. */
  lemma CombineAppend(es: seq<Entry>, e: Entry)
    ensures Combine(es + [e]) == if es == [] then Block(e) else Combine(es) + "\n\n" + Block(e)
  {
    var bs := seq(|es|, k requires 0 <= k < |es| => Block(es[k]));
    assert seq(|es + [e]|, k requires 0 <= k < |es + [e]| => Block((es + [e])[k])) == bs + [Block(e)];
    JoinAppend("\n\n", bs, Block(e));
  }

  /** The block a non-empty row contributes: its first field and the result
      of scraping it. */
  function RowBlock(row: Row, fetch: string -> Response): string
    requires row != []
  {
    Block(Entry(row[0], ScrapeWebsite(fetch(row[0]))))
  }

  /** An empty row adds nothing to the batch text. */
  lemma {:induction false} BatchReportSkipsEmptyRow(rows: seq<Row>, fetch: string -> Response)
    ensures BatchReport(rows + [[]], fetch) == BatchReport(rows, fetch)
  {
    UrlsAppendRow(rows, []);
    assert Urls(rows + [[]]) == Urls(rows) + [];
    assert Urls(rows) + [] == Urls(rows);
  }

  /** Any other row adds the block of its first field after a blank line (or
      alone if it is the first kept row), whether its scrape succeeded or not. */
  lemma {:induction false} BatchReportAddsRowBlock(rows: seq<Row>, row: Row, fetch: string -> Response)
    requires row != []
    ensures BatchReport(rows + [row], fetch) ==
      if Urls(rows) == [] then RowBlock(row, fetch)
      else BatchReport(rows, fetch) + "\n\n" + RowBlock(row, fetch)
  {
    UrlsAppendRow(rows, row);
    var us := Urls(rows);
    var e := Entry(row[0], ScrapeWebsite(fetch(row[0])));
    EntriesAppend(us, row[0], fetch);
    var es := Entries(us, fetch);
    assert Entries(Urls(rows + [row]), fetch) == es + [e];
    CombineAppend(es, e);
    assert us == [] <==> es == [];
  }

  /** With no non-empty row the batch text is empty. */
  lemma {:induction false} NoRowsGiveEmptyReport(rows: seq<Row>, fetch: string -> Response)
    requires forall i :: 0 <= i < |rows| ==> rows[i] == []
    ensures Urls(rows) == []
    ensures BatchReport(rows, fetch) == ""
  {
    if |rows| > 0 {
      NoRowsGiveEmptyReport(rows[1..], fetch);
    }
  }

  /** A URL whose scrape failed still gets a block, with `None` as its result. */
  lemma FailedUrlBlock(url: string, fetch: string -> Response)
    requires fetch(url).Failed?
    ensures Block(Entry(url, ScrapeWebsite(fetch(url)))) == url + ":\nNone"
  {
  }

  /** A succeeded URL's block holds its full page report. */
  lemma FetchedUrlBlock(url: string, fetch: string -> Response)
    requires fetch(url).Fetched?
    ensures Block(Entry(url, ScrapeWebsite(fetch(url)))) == url + ":\n" + PageReport.Render(fetch(url).page)
  {
  }
}

/** A concrete batch showing which rows are kept and how failures render. */
module BatchExamples {
  import opened Wrappers
  import opened Scraper
  import opened Batch

  /** The blank line is dropped and the empty field is kept as a URL. */
  lemma ExampleUrls()
    ensures Urls([["http://a.example"], [], [""]]) == ["http://a.example", ""]
  {
    var rows: seq<Row> := [["http://a.example"], [], [""]];
    assert rows[1..] == [[], [""]];
    assert rows[1..][1..] == [[""]];
  }

  /** Both URLs fail, so both results are `None`. */
  lemma ExampleEntries(fetch: string -> Response)
    requires forall u :: fetch(u).Failed?
    ensures Entries(["http://a.example", ""], fetch) == [Entry("http://a.example", None), Entry("", None)]
  {
    var es := Entries(["http://a.example", ""], fetch);
    assert es[0] == Entry("http://a.example", None);
    assert es[1] == Entry("", None);
  }

  /** Two failed entries render as two `None` blocks around a blank line. */
  lemma ExampleCombine()
    ensures Combine([Entry("http://a.example", None), Entry("", None)]) == "http://a.example:\nNone\n\n:\nNone"
  {
    var e1 := Entry("http://a.example", None);
    var e2 := Entry("", None);
    CombineAppend([e1], e2);
    CombineAppend([], e1);
    assert [] + [e1] == [e1];
    assert [e1] + [e2] == [e1, e2];
    assert Block(e1) == "http://a.example:\nNone";
    assert Block(e2) == ":\nNone";
  }

  /** Three rows: a URL, a blank line and a row whose only field is empty.
      With every scrape failing, the blank line is dropped, the empty field is
      kept as a URL of its own, and both results render as "None". */
  lemma AllFailingBatch(fetch: string -> Response)
    requires forall u :: fetch(u).Failed?
    ensures BatchReport([["http://a.example"], [], [""]], fetch) ==
      "http://a.example:\nNone\n\n:\nNone"
  {
    ExampleUrls();
    ExampleEntries(fetch);
    ExampleCombine();
  }
}
