# BasicWebScraper text assembly, in Dafny

BasicWebScraper is a small tkinter application. It fetches a web page, extracts
the title, the h1–h6 headings and the paragraphs, and shows them as a text
report. It does this for one URL typed by the user or for every URL listed in
a CSV file. This project models the pure part of `main.py`: how a page's
extracted data becomes its report, what `scrape_website` returns, when the
single-URL path displays that result, and how the CSV path combines the
per-URL results into one text. Network access, HTML parsing, CSV reading, the
GUI and saving to disk stay outside the model. A fetch is a parameter of type
`string -> Response`, which gives either the extracted page or a failure kind.

Modules:

- `Wrappers` (`wrappers.dfy`): `Option`, standing for Python's `None` or a value.
- `PyStr` (`pystr.dfy`): the Python `str` operations the code uses. These are `sep.join`,
  `strip` with Python's `isspace` character set, `count`, and the `str()` of an optional
  string. It also defines `split` at one character, which the code never calls. `split`
  serves only as a reference definition for stating the report's line structure and
  `LineCount`, through the proved join/split round trip.
- `PageReport` (`report.dfy`): the `data` dict of `scrape_website`, its rendering
  into blocks, and the blank-result check. `ReportExamples` holds two concrete pages.
- `Scraper` (`scraper.dfy`): the outcome of `scrape_website` and the truthiness guard
  of `scrape_single_website`.
- `Batch` (`batch.dfy`): the row loop and the final join of `scrape_csv_file`.
  `BatchExamples` holds one concrete batch.

What the proofs establish:

- The report always begins with `"Title:\n"`. So `result.strip()` is never empty,
  and the `'No data found'` branch cannot be taken for any page.
- The report is exactly the lines `Title:`, title, `Headings:`, the headings,
  `Paragraphs:`, the paragraphs, joined by newlines. An empty list contributes
  one empty line. When no extracted text contains a newline, splitting the report at
  newlines gives those lines back. Nothing is dropped or reordered, and the
  report has `4 + max(1,|H|) + max(1,|P|)` lines.
- The batch text has one `url:\n<result>` block per non-empty CSV row, in row
  order, separated by blank lines. A failed URL renders as `None`. Zero kept
  rows give the empty string. A row whose first field is `""` is kept.

Behaviour of the code worth noting:

- An empty headings or paragraphs list leaves an empty line after its label.
  It is not the label followed directly by the next label (`EmptyHeadingsLeaveBlankLine`).
- `'No data found'` is never produced, not even for a page with nothing in it
  (`Report`, `ReportExamples.EmptyPageReport`).
- A title element with no child or more than one child has `.string == None`, so
  its title renders as `None` and not as an empty string (`ReportExamples.EmptyTitleElementReport`).
- A failed scrape shows its message only in a message box, and `scrape_website`
  returns `None`. In a batch the failure's block reads `None` (`Batch.FailedUrlBlock`).
- Only rows that are empty lists are skipped. A row whose URL field is empty
  or blank is scraped like any other (`BatchExamples.AllFailingBatch`).

## Model

| member | source | states |
|---|---|---|
| PageReport.TitleValue | main.py:18 | with no title element the title is "No title found"; otherwise it is the element's `.string`, `None` included |
| PageReport.TitleLine | main.py:18-24 | when the title text holds no newline, whatever the headings and paragraphs hold, the report's second line is the title value: the element's own string, "None", or "No title found" when there is no title element |
| PageReport.Fields | main.py:17-21 | the dict has exactly three entries, keyed Title, Headings, Paragraphs in that order; Title holds `TitleValue` of the page's title element, and the other two hold the heading and paragraph lists unchanged |
| PageReport.RenderField | main.py:24 | every block starts with its key followed by `":\n"` |
| PageReport.RenderFields | main.py:24 | no fields render as the empty string; otherwise the text starts with the first field's `key:\n` |
| PageReport.Render | main.py:17-24 | every rendering of a page starts with `"Title:\n"` |
| PageReport.RenderBlocks | main.py:17-24 | the rendering is the Title, Headings and Paragraphs blocks in dict order, each `key:\n` plus its content, joined by newlines |
| PageReport.RenderClosedForm | main.py:17-24 | the rendering equals `"Title:\n" + T + "\nHeadings:\n" + join(H) + "\nParagraphs:\n" + join(P)` |
| PageReport.RenderNeverBlank | main.py:24-26 | `strip()` of every rendering is non-empty |
| PageReport.Report | main.py:23-26 | the formatted result always equals the rendering: it starts with the title label and is never "No data found" |
| PageReport.RenderIsJoinedLines | main.py:19-24 | for every page the rendering is its report lines joined by newlines; an empty list stands for one empty line |
| PageReport.EmptyHeadingsLeaveBlankLine | main.py:24 | with no headings the labels read `"Headings:\n\nParagraphs:\n"`, leaving an empty line |
| PageReport.EmptyParagraphsLeaveBlankLine | main.py:24 | with no paragraphs the report ends with the paragraphs label and a newline |
| PageReport.ReportLinesSingleLine | main.py:19-24 | when no extracted text holds a newline, no report line holds one either |
| PageReport.ReportLineStructure | main.py:19-24 | when no text holds a newline, splitting the report at newlines gives back every heading and paragraph in order and count, and the report has `4 + max(1,|H|) + max(1,|P|)` lines |
| ReportExamples.EmptyPageReport | main.py:17-26 | a page with no title element, headings or paragraphs renders as `"Title:\nNo title found\nHeadings:\n\nParagraphs:\n"` |
| ReportExamples.EmptyTitleElementReport | main.py:17-26 | an empty title element with one empty paragraph renders as `"Title:\nNone\nHeadings:\n\nParagraphs:\n"` |
| PyStr.Join | main.py:24 | `sep.join(items)` is empty for no items, starts with the first item, and is as long as the items plus one separator between each neighbouring pair |
| PyStr.JoinCons | main.py:24 | joining an item in front of a non-empty list adds exactly one separator |
| PyStr.JoinConcat | main.py:24 | joining two non-empty lists is the two joins with one separator between them |
| PyStr.JoinAppend | main.py:59 | appending one item to a join adds one separator and the item at the end |
| PyStr.SplitJoin | main.py:24 | splitting a newline join at newlines gives back the items, in order and number, when no item holds a newline |
| PyStr.StripLeading | main.py:26 | the result is a suffix of the input, everything removed is whitespace, and the result does not start with whitespace |
| PyStr.StripTrailing | main.py:26 | the result is a prefix of the input, everything removed is whitespace, and the result does not end with whitespace |
| PyStr.Strip | main.py:26 | `strip()` is empty exactly when every character is whitespace |
| PyStr.Count | main.py:68 | `s.count(c)` is at most `len(s)` and is zero exactly when `c` does not occur |
| PyStr.Show | main.py:24 | the f-string of a string is the string itself; the text is "None" exactly for `None` or the string "None" |
| PyStr.LineCount | main.py:68 | `count('\n') + 1` is the number of pieces that splitting at newlines gives |
| Scraper.ScrapeWebsite | main.py:10-37 | the result is a string exactly when the fetch succeeded, then the page's full rendering (never empty), and `None` on every failure kind |
| Scraper.Displayed | main.py:39-43 | a result is shown exactly when it is neither `None` nor empty, and it is shown unchanged |
| Scraper.SingleUrlDisplay | main.py:39-43 | the single-URL path displays every successful scrape's rendering and nothing for a failure |
| Batch.Urls | main.py:53-55 | at most one URL per row, and the first field of every non-empty row is among them |
| Batch.KeptRows | main.py:53-54 | the kept row positions are in range, point at non-empty rows and are strictly increasing |
| Batch.KeptRowsComplete | main.py:53-54 | every non-empty row is kept |
| Batch.UrlsAtKeptRows | main.py:53-55 | there is exactly one URL per non-empty row, and the k-th URL is the first field of the k-th non-empty row |
| Batch.UrlsAreFirstFields | main.py:53-55 | the URLs are the first fields of the non-empty rows, one per such row, in row order, including empty first fields |
| Batch.UrlsAppendRow | main.py:53-55 | one more row adds its first field at the end, unless the row is empty |
| Batch.Entries | main.py:56-57 | one pair per URL, in URL order, whose result is a string exactly when that URL's fetch succeeded |
| Batch.EntriesAppend | main.py:56-57 | scraping one more URL appends its (url, result) pair |
| Batch.CollectResults | main.py:50-57 | the loop collects one (url, result) pair per URL of the non-empty rows, in row order |
| Batch.ScrapeCsvFile | main.py:50-59 | the displayed text is the batch report of the rows |
| Batch.Block | main.py:59 | a block starts with `url:\n`, and a failed result's block is exactly `url:\nNone` |
| Batch.Combine | main.py:59 | the combined text is empty exactly when there are no pairs, and otherwise starts with the first URL's `url:\n` |
| Batch.BatchReport | main.py:50-59 | the batch text is empty exactly when no row is kept |
| Batch.CombineAppend | main.py:59 | one more pair adds its `url:\n<result>` block after a blank line, or alone when it is the first |
| Batch.BatchReportSkipsEmptyRow | main.py:53-54 | an empty CSV row adds nothing to the batch text |
| Batch.BatchReportAddsRowBlock | main.py:53-59 | any other row adds the `url:\n<result>` block of its first field after a blank line, or alone when it is the first kept row, whether its scrape succeeded or failed |
| Batch.NoRowsGiveEmptyReport | main.py:50-59 | with no non-empty row there are no URLs and the text is empty |
| Batch.FailedUrlBlock | main.py:56-59 | a failed URL still gets a block, reading `url:\nNone` |
| Batch.FetchedUrlBlock | main.py:56-59 | a succeeded URL's block is the URL, a colon, a newline and the page's full rendering |
| BatchExamples.ExampleUrls | main.py:53-55 | rows `["http://a.example"]`, `[]`, `[""]` give the URLs `"http://a.example"` and `""` |
| BatchExamples.ExampleEntries | main.py:56-57 | with every fetch failing, both URLs are paired with `None` |
| BatchExamples.ExampleCombine | main.py:59 | two failed pairs render as `"http://a.example:\nNone\n\n:\nNone"` |
| BatchExamples.AllFailingBatch | main.py:53-59 | with every fetch failing, rows `["http://a.example"]`, `[]`, `[""]` give `"http://a.example:\nNone\n\n:\nNone"` |

## Left out

- The HTTP request and `raise_for_status` (main.py:12-13) are network I/O. A fetch is a parameter, and a failure is only its kind.
- The message boxes for each failure kind (main.py:27-36) are GUI side effects. The model keeps only the `None` result.
- BeautifulSoup parsing (main.py:14, 18-20) is a foreign library. The title element, the heading texts and the paragraph texts are inputs.
- Reading the CSV file and the file dialog (main.py:46-52) are file I/O. Rows come in as already-parsed sequences of fields.
- `display_result` (main.py:62-71) is widget and window code. Only its line measure `count('\n') + 1` is modelled, as `PyStr.LineCount`.
- `save_results` (main.py:73-89) is file I/O and gzip compression.
- The window setup and widgets (main.py:91-141) are GUI only.
- Batch.BatchReport: the fetch is a function of the URL. A URL listed twice therefore gets the same outcome both times, whereas the real network may answer differently.
- PageReport.RenderField: its contract states only the `key:\n` label prefix. The content after the label (the items joined by newlines, or the value's text) is stated for the three blocks of a page by `PageReport.RenderBlocks` and `PageReport.RenderClosedForm`.
- PageReport.RenderFields: its contract states only the empty case and the first block's label. That all blocks are joined by newlines is stated for a page's three blocks by `PageReport.RenderBlocks` and `PageReport.RenderClosedForm`.
