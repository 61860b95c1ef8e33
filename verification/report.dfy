/** The per-page report that `scrape_website` assembles from the extracted
    title, headings and paragraphs. */
module PageReport {
  import opened Wrappers
  import opened PyStr

  /** What `soup.title` gives: no title element at all, or a title element
      whose `.string` is one string or `None` (BeautifulSoup gives `None`
      when the element has no child or more than one). */
  datatype TitleElement = NoTitle | TitleElement(str: Option<string>)

  /** The data extracted from one page: the title element, then the text of
      every h1..h6 and of every p element, in document order. */
  datatype Page = Page(title: TitleElement, headings: seq<string>, paragraphs: seq<string>)

  const NoTitleText := "No title found"
  const NoDataText := "No data found"

  /** The value stored under "Title": the element's `.string`, or the
      fixed text when the page has no title element. */
  function TitleValue(t: TitleElement): (v: Option<string>)
    ensures t.NoTitle? ==> v == Some(NoTitleText)
    ensures t.TitleElement? ==> v == t.str
    ensures v.None? <==> t.TitleElement? && t.str.None?
  {
    match t
    case NoTitle => Some(NoTitleText)
    case TitleElement(s) => s
  }

  /** A value of the `data` dict: a scalar (the title) or a list of strings. */
  datatype FieldValue = Scalar(text: Option<string>) | Items(items: seq<string>)

  datatype Field = Field(key: string, value: FieldValue)

  /** The `data` dict, its keys in insertion order. */
  function Fields(p: Page): (fs: seq<Field>)
    ensures |fs| == 3
    ensures fs[0].key == "Title" && fs[1].key == "Headings" && fs[2].key == "Paragraphs"
    ensures fs[0].value == Scalar(TitleValue(p.title))
    ensures fs[1].value == Items(p.headings) && fs[2].value == Items(p.paragraphs)
  {
    [ Field("Title", Scalar(TitleValue(p.title))),
      Field("Headings", Items(p.headings)),
      Field("Paragraphs", Items(p.paragraphs)) ]
  }

  /** One block: the key, a colon and a newline, then the value; a list
      value is its items joined by newlines. */
  function RenderField(f: Field): (r: string)
    ensures |r| >= |f.key| + 2 && r[..|f.key| + 2] == f.key + ":\n"
  {
    match f.value
    case Items(items) => f.key + ":\n" + Join("\n", items)
    case Scalar(t) => f.key + ":\n" + Show(t)
  }

  /** The blocks of all fields, in order, joined by newlines. */
  function RenderFields(fs: seq<Field>): (r: string)
    ensures |fs| == 0 ==> r == ""
    ensures |fs| > 0 ==> |r| >= |fs[0].key| + 2 && r[..|fs[0].key| + 2] == fs[0].key + ":\n"
  {
    Join("\n", seq(|fs|, i requires 0 <= i < |fs| => RenderField(fs[i])))
  }

  /** The text shown for the title. */
  function TitleText(p: Page): string
  {
    Show(TitleValue(p.title))
  }

  /** The formatted string before the blank-result check. */
  function Render(p: Page): (r: string)
    ensures |r| >= 7 && r[..7] == "Title:\n"
  {
    RenderFields(Fields(p))
  }

  /** The three blocks of a page, in the order the dict holds them. */
  lemma {:induction false} RenderBlocks(p: Page)
    ensures Render(p) ==
      ("Title:\n" + TitleText(p)) + "\n"
      + (("Headings:\n" + Join("\n", p.headings)) + "\n"
         + ("Paragraphs:\n" + Join("\n", p.paragraphs)))
  {
    var fs := Fields(p);
    var blocks := seq(|fs|, i requires 0 <= i < |fs| => RenderField(fs[i]));
    assert blocks[0] == "Title:\n" + TitleText(p) by {
      assert "Title" + ":\n" == "Title:\n";
    }
    assert blocks[1] == "Headings:\n" + Join("\n", p.headings) by {
      assert "Headings" + ":\n" == "Headings:\n";
    }
    assert blocks[2] == "Paragraphs:\n" + Join("\n", p.paragraphs) by {
      assert "Paragraphs" + ":\n" == "Paragraphs:\n";
    }
    assert blocks == ["Title:\n" + TitleText(p)]
      + (["Headings:\n" + Join("\n", p.headings)] + ["Paragraphs:\n" + Join("\n", p.paragraphs)]);
    JoinCons("\n", blocks[0], blocks[1..]);
    JoinCons("\n", blocks[1], blocks[2..]);
  }

  /** The rendered report written out as one flat concatenation: the three
      labels in fixed order, each followed by its content. This is the form
      the rest of the model uses; `RenderBlocks` above is the same text
      grouped block by block, as the dict rendering produces it. */
  lemma RenderClosedForm(p: Page)
    ensures Render(p) ==
      "Title:\n" + TitleText(p) + "\n"
      + "Headings:\n" + Join("\n", p.headings) + "\n"
      + "Paragraphs:\n" + Join("\n", p.paragraphs)
  {
    RenderBlocks(p);
  }

  /** The rendered report is never blank: it holds a non-whitespace character. */
  lemma RenderNeverBlank(p: Page)
    ensures Strip(Render(p)) != ""
  {
    assert Render(p)[0] == 'T';
  }

  /** The result of the formatting step of `scrape_website`: the rendered
      blocks, or "No data found" when they are blank. The blank case never
      happens, so the result is always the rendering, led by its title label.
      The title-label clause follows from the first one and `Render`'s own
      contract; it is repeated so that callers of `Report` see it directly. */
  function Report(p: Page): (r: string)
    ensures r == Render(p)
    ensures r != NoDataText
    ensures |r| >= 7 && r[..7] == "Title:\n"
  {
    var r := Render(p);
    RenderNeverBlank(p);
    if Strip(r) != "" then r else NoDataText
  }

  /** An empty list stands for one empty line. */
  function LinesOf(items: seq<string>): (r: seq<string>)
    ensures |r| == if |items| == 0 then 1 else |items|
    ensures Join("\n", r) == Join("\n", items)
  {
    if |items| == 0 then [""] else items
  }

  /** The report line by line: the title label and value, the headings label,
      the headings (one empty line if there are none), the paragraphs label and
      the paragraphs (one empty line if there are none). */
  function ReportLines(p: Page): seq<string>
  {
    ["Title:", TitleText(p), "Headings:"] + LinesOf(p.headings)
    + ["Paragraphs:"] + LinesOf(p.paragraphs)
  }

  /** The report is its lines joined by newlines, for every page. */
  lemma {:induction false} RenderIsJoinedLines(p: Page)
    ensures Render(p) == Join("\n", ReportLines(p))
  {
    RenderBlocks(p);
    var t := TitleText(p);
    var hs := LinesOf(p.headings);
    var ps := LinesOf(p.paragraphs);
    var ta := ["Title:", t];
    var hb := ["Headings:"] + hs;
    var pc := ["Paragraphs:"] + ps;
    assert ReportLines(p) == ta + (hb + pc);
    JoinCons("\n", "Title:", [t]);
    assert Join("\n", ta) == "Title:\n" + t;
    JoinCons("\n", "Headings:", hs);
    assert Join("\n", hb) == "Headings:\n" + Join("\n", p.headings);
    JoinCons("\n", "Paragraphs:", ps);
    assert Join("\n", pc) == "Paragraphs:\n" + Join("\n", p.paragraphs);
    JoinConcat("\n", hb, pc);
    JoinConcat("\n", ta, hb + pc);
  }

  /** An empty headings list still yields its label, followed by an empty
      line before the paragraphs label. */
  lemma EmptyHeadingsLeaveBlankLine(p: Page)
    requires p.headings == []
    ensures Render(p) ==
      "Title:\n" + TitleText(p) + "\nHeadings:\n\nParagraphs:\n" + Join("\n", p.paragraphs)
  {
    RenderClosedForm(p);
  }

  /** Same for an empty paragraph list: the report ends with the paragraphs
      label and a newline. */
  lemma EmptyParagraphsLeaveBlankLine(p: Page)
    requires p.paragraphs == []
    ensures Render(p) ==
      "Title:\n" + TitleText(p) + "\nHeadings:\n" + Join("\n", p.headings) + "\nParagraphs:\n"
  {
    RenderClosedForm(p);
  }

  /** No extracted text contains a newline. */
  predicate SingleLineFields(p: Page)
  {
    && '\n' !in TitleText(p)
    && (forall k :: 0 <= k < |p.headings| ==> '\n' !in p.headings[k])
    && (forall k :: 0 <= k < |p.paragraphs| ==> '\n' !in p.paragraphs[k])
  }

  /** With single-line fields, every report line is free of newlines. */
  lemma ReportLinesSingleLine(p: Page)
    requires SingleLineFields(p)
    ensures forall k :: 0 <= k < |ReportLines(p)| ==> '\n' !in ReportLines(p)[k]
  {
    var lines := ReportLines(p);
    var hs := LinesOf(p.headings);
    var ps := LinesOf(p.paragraphs);
    forall k | 0 <= k < |lines| ensures '\n' !in lines[k] {
      if 3 <= k < 3 + |hs| {
        assert lines[k] == hs[k - 3];
      } else if 4 + |hs| <= k {
        assert lines[k] == ps[k - 4 - |hs|];
      }
    }
  }

  /** When no extracted text holds a newline, splitting the report at newlines
      gives back exactly the report lines: every heading and paragraph, in
      order, none dropped, one line each, and `4 + max(1,|H|) + max(1,|P|)`
      lines in all. */
  lemma {:induction false} ReportLineStructure(p: Page)
    requires SingleLineFields(p)
    ensures Split(Render(p), '\n') == ReportLines(p)
    ensures var h := |p.headings|;
            var q := |p.paragraphs|;
            LineCount(Render(p)) == 4 + (if h == 0 then 1 else h) + (if q == 0 then 1 else q)
    ensures p.headings != [] ==> Split(Render(p), '\n')[3..3 + |p.headings|] == p.headings
  {
    RenderIsJoinedLines(p);
    ReportLinesSingleLine(p);
    var lines := ReportLines(p);
    SplitJoin('\n', lines);
    assert |lines| == 4 + |LinesOf(p.headings)| + |LinesOf(p.paragraphs)|;
    assert p.headings != [] ==> lines[3..3 + |p.headings|] == p.headings;
  }

  /** The closed form regrouped around the newline that ends the title line. */
  lemma TitleLineShape(t: string, h: string, q: string)
    ensures "Title:\n" + t + "\n" + "Headings:\n" + h + "\n" + "Paragraphs:\n" + q
      == "Title:" + ['\n'] + t + ['\n'] + ("Headings:\n" + h + "\n" + "Paragraphs:\n" + q)
  {
  }

  /** The second report line is the title value: the element's own string,
      "None" when its `.string` is `None`, or "No title found" when the page
      has no title element. Only the title needs to be free of newlines; the
      headings and paragraphs may hold any text. */
  lemma TitleLine(p: Page)
    requires '\n' !in TitleText(p)
    ensures Split(Render(p), '\n')[1] == TitleText(p)
    ensures p.title.NoTitle? ==> TitleText(p) == NoTitleText
    ensures p.title == TitleElement(None) ==> TitleText(p) == "None"
    ensures p.title.TitleElement? && p.title.str.Some? ==> TitleText(p) == p.title.str.value
  {
    var t := TitleText(p);
    var h := Join("\n", p.headings);
    var q := Join("\n", p.paragraphs);
    RenderClosedForm(p);
    TitleLineShape(t, h, q);
    SplitSecondPiece("Title:", t, "Headings:\n" + h + "\n" + "Paragraphs:\n" + q, '\n');
  }
}

/** Concrete pages whose reports show the edge cases of the formatting. */
module ReportExamples {
  import opened Wrappers
  import opened PyStr
  import opened PageReport

  /** A page with no title element and nothing else still gets all three
      labels (and `Report` gives this text, not "No data found"). */
  lemma EmptyPageReport(p: Page)
    requires p.title.NoTitle? && p.headings == [] && p.paragraphs == []
    ensures Render(p) == "Title:\nNo title found\nHeadings:\n\nParagraphs:\n"
  {
    EmptyParagraphsLeaveBlankLine(p);
    EmptyPageText(TitleText(p), Join("\n", p.headings));
  }

  /** The text of the page above, spelled out. */
  lemma EmptyPageText(t: string, h: string)
    requires t == NoTitleText && h == ""
    ensures "Title:\n" + t + "\nHeadings:\n" + h + "\nParagraphs:\n"
      == "Title:\nNo title found\nHeadings:\n\nParagraphs:\n"
  {
  }

  /** An empty title element (whose `.string` is `None`) with one empty
      paragraph renders the title as "None" (and `Report` gives this text,
      not "No data found"). */
  lemma EmptyTitleElementReport(p: Page)
    requires p.title == TitleElement(None) && p.headings == [] && p.paragraphs == [""]
    ensures Render(p) == "Title:\nNone\nHeadings:\n\nParagraphs:\n"
  {
    EmptyHeadingsLeaveBlankLine(p);
    EmptyTitleElementText(TitleText(p), Join("\n", p.paragraphs));
  }

  /** The text of the page above, spelled out. */
  lemma EmptyTitleElementText(t: string, q: string)
    requires t == "None" && q == ""
    ensures "Title:\n" + t + "\nHeadings:\n\nParagraphs:\n" + q
      == "Title:\nNone\nHeadings:\n\nParagraphs:\n"
  {
  }
}
