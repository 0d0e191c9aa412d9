/** stock.go: scraping stock prices and company profiles from i3investor pages
    and the two batch commands over the configured stock list. A page is given
    as the parts of its document the handlers look at; fetching a page, parsing
    a number, the current date and the two database upserts are the fields of
    a `StockEnv`. */
module Stock {
  import opened Wrappers
  import opened Text
  import opened Dates
  import opened Commands
  import opened FxClient
  import Config

  /** Go's `sql.NullString`. */
  datatype NullString = NullString(value: string, valid: bool)

  /** The parameters of `UpsertStockPrice`; the price is the parsed number,
      whose "%.4f" text is not modelled. */
  datatype PriceRow = PriceRow(stockCode: string, priceDate: Date, closingPrice: real, sourceUrl: NullString)

  /** The parameters of `UpsertCompany`; `listingDateValid` is the Valid flag of
      the listing date, whose time is never set. */
  datatype CompanyRow = CompanyRow(
    stockCode: string,
    companyName: string,
    countryCode: NullString,
    sector: NullString,
    subsector: NullString,
    listingDateValid: bool,
    profileSourceUrl: NullString)

  // ---------------------------------------------------------------------------
  // Pages

  /** One `div.col-md-3.col-6` of the price page: the texts of its `p`
      elements and of its `p > strong` elements, in document order. */
  datatype StatDiv = StatDiv(paragraphs: seq<string>, strongs: seq<string>)

  /** A child node of an element: a text node, or an element with the text of
      everything inside it. */
  datatype Node = TextNode(text: string) | Element(text: string)

  /** A `p` element, as its child nodes. */
  datatype Para = Para(nodes: seq<Node>)

  /** An `h5` element: its text, and the text of the first `strong` in the `h6`
      that immediately follows it ("" when there is none). */
  datatype Heading = Heading(text: string, nextStrong: string)

  /** The profile page: the text of the first `h5#stock-heading a strong` (""
      when there is none), the `h5` elements in document order, and the `p`
      elements of the first `div#profile-info`, if there is one. */
  datatype ProfilePage = ProfilePage(stockHeading: string, headings: seq<Heading>, profileInfo: Option<seq<Para>>)

  /** What the handlers get from outside: the page fetches, Go's
      `strconv.ParseFloat`, today's date and the two upserts (true when the
      row was stored). */
  datatype StockEnv = StockEnv(
    pricePage: string -> Reply<seq<StatDiv>>,
    profilePage: string -> Reply<ProfilePage>,
    parseFloat: string -> Option<real>,
    today: Date,
    upsertPrice: PriceRow -> bool,
    upsertCompany: CompanyRow -> bool)

  /** What one handler call did: its error, and the row it tried to upsert. */
  datatype Outcome<Row> = Outcome(err: Option<Error>, upserted: Option<Row>)

  /** The errors of fetching a page: the request failing, a status other than
      200, or a body that does not parse as HTML. */
  function PageError<T>(reply: Reply<T>, url: string): (e: Option<Error>)
    ensures e == None <==> reply.Response? && reply.status == 200 && reply.body.Some?
  {
    match reply
    case TransportFailure => Some(PageRequestFailed(url))
    case Response(status, body) =>
      if status != 200 then Some(PageStatus(status, url))
      else if body.None? then Some(PageParseFailed(url))
      else None
  }

  // ---------------------------------------------------------------------------
  // Price selection

  /** `s.Find("p").First().Text()`: the first paragraph's text, or "" without one. */
  function Label(div: StatDiv): string
  {
    if div.paragraphs == [] then "" else div.paragraphs[0]
  }

  /** A div the selection stops at: labelled "Last Price" and holding a strong. */
  predicate HoldsPrice(div: StatDiv)
  {
    Contains(Label(div), "Last Price") && div.strongs != []
  }

  /** The position of the first div that holds the price, or the number of divs. */
  function FirstPriceDiv(divs: seq<StatDiv>): (i: nat)
    ensures i <= |divs|
    ensures i < |divs| ==> HoldsPrice(divs[i])
    ensures forall k :: 0 <= k < i ==> !HoldsPrice(divs[k])
  {
    if divs == [] then 0
    else if HoldsPrice(divs[0]) then 0
    else 1 + FirstPriceDiv(divs[1..])
  }

  /** The price text the page offers: the first strong of the first div that
      holds the price. */
  function SelectedPrice(divs: seq<StatDiv>): Option<string>
  {
    var i := FirstPriceDiv(divs);
    if i < |divs| then Some(divs[i].strongs[0]) else None
  }

  /** The `EachWithBreak` walk over the divs of the price page. */
  method SelectPrice(divs: seq<StatDiv>) returns (priceStr: string, found: bool)
    ensures found <==> SelectedPrice(divs).Some?
    ensures found ==> priceStr == SelectedPrice(divs).value
    ensures !found ==> priceStr == ""
  {
    priceStr, found := "", false;
    var i := 0;
    while i < |divs|
      invariant i <= |divs|
      invariant forall k :: 0 <= k < i ==> !HoldsPrice(divs[k])
    {
      var labelText := Label(divs[i]);
      if Contains(labelText, "Last Price") {
        if |divs[i].strongs| > 0 {
          priceStr := divs[i].strongs[0];
          found := true;
          return;
        }
      }
      i := i + 1;
    }
  }

  /** The first div that holds the price decides, whatever follows it. */
  lemma FirstDivWins(div: StatDiv, rest: seq<StatDiv>)
    requires HoldsPrice(div)
    ensures SelectedPrice([div] + rest) == Some(div.strongs[0])
  {
  }

  /** A labelled div without a strong, or an unlabelled one, is passed over. */
  lemma DivWithoutPriceSkipped(div: StatDiv, rest: seq<StatDiv>)
    requires !HoldsPrice(div)
    ensures SelectedPrice([div] + rest) == SelectedPrice(rest)
  {
    assert ([div] + rest)[1..] == rest;
  }

  /** Without a div that holds the price there is no price. */
  lemma NoPriceDiv(divs: seq<StatDiv>)
    ensures SelectedPrice(divs) == None <==> forall k :: 0 <= k < |divs| ==> !HoldsPrice(divs[k])
  {
  }

  // ---------------------------------------------------------------------------
  // The price handler

  function PriceCommand(code: string): Command
  {
    Command("stock:fetch:price", [code])
  }

  /** `handlerStockFetchPrice`: one code; the page at the base URL followed by
      the code; the selected price text trimmed and parsed; today's date; and
      one upsert. */
  function Price(cfg: Config.Config, cmd: Command, env: StockEnv): (o: Outcome<PriceRow>)
    ensures |cmd.args| != 1 ==> o == Outcome(Some(Usage(cmd.name)), None)
    ensures o.upserted.Some? ==>
      |cmd.args| == 1
      && o.upserted.value.stockCode == cmd.args[0]
      && o.upserted.value.priceDate == env.today
      && o.upserted.value.sourceUrl == NullString(cfg.i3InvestorBaseUrl + cmd.args[0], true)
    ensures o.err == None <==> o.upserted.Some? && env.upsertPrice(o.upserted.value)
  {
    if |cmd.args| != 1 then Outcome(Some(Usage(cmd.name)), None)
    else
      var code := cmd.args[0];
      var url := cfg.i3InvestorBaseUrl + code;
      var reply := env.pricePage(url);
      if PageError(reply, url).Some? then Outcome(PageError(reply, url), None)
      else
        var selected := SelectedPrice(reply.body.value);
        if selected.None? || selected.value == "" then Outcome(Some(PriceNotFound(url)), None)
        else
          var text := TrimSpace(selected.value);
          match env.parseFloat(text)
          case None => Outcome(Some(PriceParseFailed(text)), None)
          case Some(price) =>
            var row := PriceRow(code, env.today, price, NullString(url, true));
            Outcome(if env.upsertPrice(row) then None else Some(PriceStoreFailed(code)), Some(row))
  }

  /** When the page yields no price text, the handler reports it and upserts
      nothing. */
  lemma PriceMissingNotStored(cfg: Config.Config, code: string, env: StockEnv)
    requires PageError(env.pricePage(cfg.i3InvestorBaseUrl + code), cfg.i3InvestorBaseUrl + code).None?
    requires var divs := env.pricePage(cfg.i3InvestorBaseUrl + code).body.value;
      SelectedPrice(divs).None? || SelectedPrice(divs).value == ""
    ensures Price(cfg, PriceCommand(code), env)
      == Outcome(Some(PriceNotFound(cfg.i3InvestorBaseUrl + code)), None)
  {
  }

  /** A stored price is the parsed, trimmed text of the selected price. */
  lemma StoredPriceIsSelected(cfg: Config.Config, code: string, env: StockEnv)
    requires Price(cfg, PriceCommand(code), env).upserted.Some?
    ensures var url := cfg.i3InvestorBaseUrl + code;
      var divs := env.pricePage(url).body.value;
      PageError(env.pricePage(url), url).None? && SelectedPrice(divs).Some?
      && env.parseFloat(TrimSpace(SelectedPrice(divs).value))
         == Some(Price(cfg, PriceCommand(code), env).upserted.value.closingPrice)
  {
  }

  /** A page that loads and offers a price text that parses is upserted: the
      row holds the code, today's date, the parsed price and the page URL. */
  lemma PriceStoredWhenParsed(cfg: Config.Config, code: string, env: StockEnv, x: real)
    requires PageError(env.pricePage(cfg.i3InvestorBaseUrl + code), cfg.i3InvestorBaseUrl + code).None?
    requires var divs := env.pricePage(cfg.i3InvestorBaseUrl + code).body.value;
      SelectedPrice(divs).Some? && SelectedPrice(divs).value != ""
      && env.parseFloat(TrimSpace(SelectedPrice(divs).value)) == Some(x)
    ensures Price(cfg, PriceCommand(code), env).upserted
      == Some(PriceRow(code, env.today, x, NullString(cfg.i3InvestorBaseUrl + code, true)))
  {
  }

  /** A price text that does not parse is reported with its trimmed text, and
      nothing is upserted. */
  lemma PriceParseFailedReported(cfg: Config.Config, code: string, env: StockEnv)
    requires PageError(env.pricePage(cfg.i3InvestorBaseUrl + code), cfg.i3InvestorBaseUrl + code).None?
    requires var divs := env.pricePage(cfg.i3InvestorBaseUrl + code).body.value;
      SelectedPrice(divs).Some? && SelectedPrice(divs).value != ""
      && env.parseFloat(TrimSpace(SelectedPrice(divs).value)) == None
    ensures var divs := env.pricePage(cfg.i3InvestorBaseUrl + code).body.value;
      Price(cfg, PriceCommand(code), env)
      == Outcome(Some(PriceParseFailed(TrimSpace(SelectedPrice(divs).value))), None)
  {
  }

  /** A selected price text that is only white space trims to "", which no
      number parser accepts (Go's `strconv.ParseFloat("")` fails), so nothing
      is upserted and an error is returned. */
  lemma BlankPriceNotStored(cfg: Config.Config, code: string, env: StockEnv)
    requires env.parseFloat("") == None
    requires PageError(env.pricePage(cfg.i3InvestorBaseUrl + code), cfg.i3InvestorBaseUrl + code).None?
    requires var divs := env.pricePage(cfg.i3InvestorBaseUrl + code).body.value;
      SelectedPrice(divs).Some? && TrimSpace(SelectedPrice(divs).value) == []
    ensures Price(cfg, PriceCommand(code), env).err.Some?
    ensures Price(cfg, PriceCommand(code), env).upserted == None
  {
  }

  method FetchPrice(cfg: Config.Config, cmd: Command, env: StockEnv) returns (o: Outcome<PriceRow>)
    ensures o == Price(cfg, cmd, env)
  {
    if |cmd.args| != 1 {
      return Outcome(Some(Usage(cmd.name)), None);
    }
    var code := cmd.args[0];
    var url := cfg.i3InvestorBaseUrl + code;
    var reply := env.pricePage(url);
    var pageErr := PageError(reply, url);
    if pageErr.Some? {
      return Outcome(pageErr, None);
    }
    var priceStr, found := SelectPrice(reply.body.value);
    if !found || priceStr == "" {
      return Outcome(Some(PriceNotFound(url)), None);
    }
    priceStr := TrimSpace(priceStr);
    var price := env.parseFloat(priceStr);
    if price.None? {
      return Outcome(Some(PriceParseFailed(priceStr)), None);
    }
    var row := PriceRow(code, env.today, price.value, NullString(url, true));
    if !env.upsertPrice(row) {
      return Outcome(Some(PriceStoreFailed(code)), Some(row));
    }
    o := Outcome(None, Some(row));
  }

  // ---------------------------------------------------------------------------
  // extractTextAfterLabel

  /** `p.Text()`: the text of all the paragraph's nodes, in order. */
  function RawText(nodes: seq<Node>): string
  {
    if nodes == [] then [] else nodes[0].text + RawText(nodes[1..])
  }

  /** A text node that is not blank. */
  predicate Visible(n: Node)
  {
    n.TextNode? && TrimSpace(n.text) != []
  }

  /** The last visible text node, trimmed, or "" when there is none. */
  function LastVisible(nodes: seq<Node>): (v: string)
    ensures Trimmed(v)
  {
    if nodes == [] then ""
    else if Visible(nodes[|nodes| - 1]) then TrimSpace(nodes[|nodes| - 1].text)
    else LastVisible(nodes[..|nodes| - 1])
  }

  /** The scan over the paragraph's child nodes that keeps the last non-empty
      trimmed text node. */
  method ScanVisibleText(nodes: seq<Node>) returns (visibleText: string)
    ensures visibleText == LastVisible(nodes)
  {
    visibleText := "";
    var i := 0;
    while i < |nodes|
      invariant i <= |nodes| && visibleText == LastVisible(nodes[..i])
    {
      assert nodes[..i + 1][..i] == nodes[..i];
      if nodes[i].TextNode? {
        var trimmedNodeText := TrimSpace(nodes[i].text);
        if trimmedNodeText != "" {
          visibleText := trimmedNodeText;
        }
      }
      i := i + 1;
    }
    assert nodes[..i] == nodes;
  }

  /** The position of the last visible text node, or -1 when there is none. */
  function LastVisibleIndex(nodes: seq<Node>): (k: int)
    ensures -1 <= k < |nodes|
    ensures k >= 0 ==> Visible(nodes[k])
    ensures forall j :: k < j < |nodes| ==> !Visible(nodes[j])
  {
    if nodes == [] then -1
    else if Visible(nodes[|nodes| - 1]) then |nodes| - 1
    else
      var k := LastVisibleIndex(nodes[..|nodes| - 1]);
      assert forall j :: k < j < |nodes| - 1 ==> nodes[j] == nodes[..|nodes| - 1][j];
      k
  }

  /** The scan finds "" exactly when no text node is visible, and otherwise the
      trimmed text of the last visible one. */
  lemma {:induction false} LastVisibleIsLast(nodes: seq<Node>)
    ensures LastVisible(nodes) == [] <==> forall k :: 0 <= k < |nodes| ==> !Visible(nodes[k])
    ensures LastVisibleIndex(nodes) >= 0 ==> LastVisible(nodes) == TrimSpace(nodes[LastVisibleIndex(nodes)].text)
    decreases |nodes|
  {
    if nodes != [] && !Visible(nodes[|nodes| - 1]) {
      var init := nodes[..|nodes| - 1];
      LastVisibleIsLast(init);
      assert forall k :: 0 <= k < |init| ==> nodes[k] == init[k];
    }
  }

  /** The second part of Go's `strings.SplitN(s, sep, 2)`, when there are two
      parts: the text after the first `sep`; for an empty `sep`, the text after
      the first character of a string of at least two characters. */
  function SplitNSecond(s: string, sep: string): (r: Option<string>)
    ensures sep != [] ==> (r.Some? <==> Contains(s, sep))
  {
    ContainsIndexOf(s, sep);
    if sep == [] then (if |s| >= 2 then Some(s[1..]) else None)
    else if IndexOf(s, sep) >= 0 then Some(AfterFirst(s, sep))
    else None
  }

  /** `extractTextAfterLabel(p, label)`. */
  function TextAfterLabel(p: Para, fieldLabel: string): (r: string)
    ensures Trimmed(r)
  {
    var rawText := RawText(p.nodes);
    var visibleText := LastVisible(p.nodes);
    if visibleText != [] then
      if Contains(rawText, fieldLabel) && SplitNSecond(rawText, fieldLabel).Some? then
        var checkVisible := TrimSpace(SplitNSecond(rawText, fieldLabel).value);
        if HasSuffix(checkVisible, visibleText) then visibleText else checkVisible
      else visibleText
    else
      var parts := Fields(TrimSpace(TrimPrefix(rawText, fieldLabel)));
      if |parts| > 0 then parts[|parts| - 1] else ""
  }

  /** With a visible text node, the last one is the answer unless the label
      occurs and the trimmed text after its first occurrence does not end with
      that node; then that trimmed text is the answer. */
  lemma VisibleTextChosen(p: Para, fieldLabel: string)
    requires LastVisible(p.nodes) != []
    ensures var raw := RawText(p.nodes);
      var v := LastVisible(p.nodes);
      SplitNSecond(raw, fieldLabel).Some? && !HasSuffix(TrimSpace(SplitNSecond(raw, fieldLabel).value), v) ==>
        TextAfterLabel(p, fieldLabel) == TrimSpace(SplitNSecond(raw, fieldLabel).value)
    ensures var raw := RawText(p.nodes);
      var v := LastVisible(p.nodes);
      !(SplitNSecond(raw, fieldLabel).Some? && !HasSuffix(TrimSpace(SplitNSecond(raw, fieldLabel).value), v)) ==>
        TextAfterLabel(p, fieldLabel) == v
    ensures fieldLabel != [] && !Contains(RawText(p.nodes), fieldLabel) ==> TextAfterLabel(p, fieldLabel) == LastVisible(p.nodes)
  {
    // An empty label occurs at the start of any text.
    assert OccursAt(RawText(p.nodes), [], 0);
  }

  /** Without a visible text node, the answer is the last word of the raw text
      once a leading label is cut off, or "" when there is no word. */
  lemma FallbackLastWord(p: Para, fieldLabel: string)
    requires LastVisible(p.nodes) == []
    ensures var words := Fields(TrimSpace(TrimPrefix(RawText(p.nodes), fieldLabel)));
      TextAfterLabel(p, fieldLabel) == (if words == [] then "" else words[|words| - 1])
    ensures TextAfterLabel(p, fieldLabel) != [] ==> NoSpace(TextAfterLabel(p, fieldLabel))
  {
  }

  /** The text of the paragraph in `HiddenDuplicateIgnored`, hidden element included. */
  lemma ExampleRawText(nodes: seq<Node>)
    requires nodes == [TextNode("Country Code: "), Element("MY"), TextNode(" MY")]
    ensures RawText(nodes) == "Country Code: MY MY"
  {
    assert RawText(nodes[2..]) == " MY" by {
      assert nodes[2..][1..] == [];
    }
    assert RawText(nodes[1..]) == "MY" + " MY" by {
      assert nodes[1..][1..] == nodes[2..];
    }
  }

  /** The label occurs at the start of that text. */
  lemma ExampleSplit(raw: string)
    requires raw == "Country Code: MY MY"
    ensures SplitNSecond(raw, "Country Code:") == Some(" MY MY")
  {
    assert raw[..13] == "Country Code:";
    assert IndexOf(raw, "Country Code:") == 0;
    assert raw[13..] == " MY MY";
  }

  /** A paragraph "Country Code: <a class="d-none">MY</a> MY": the hidden
      duplicate is not part of the answer. */
  lemma HiddenDuplicateIgnored()
    ensures TextAfterLabel(Para([TextNode("Country Code: "), Element("MY"), TextNode(" MY")]), "Country Code:") == "MY"
  {
    var nodes := [TextNode("Country Code: "), Element("MY"), TextNode(" MY")];
    var raw := RawText(nodes);
    ExampleRawText(nodes);
    assert TrimSpace(" MY") == "MY" by {
      assert TrimLeft(" MY") == TrimLeft("MY") == "MY";
    }
    assert TrimSpace(" MY MY") == "MY MY" by {
      assert TrimLeft(" MY MY") == TrimLeft("MY MY") == "MY MY";
    }
    assert LastVisible(nodes) == "MY";
    ExampleSplit(raw);
    assert HasSuffix("MY MY", "MY") by {
      assert "MY MY"[3..] == "MY";
    }
  }

  method ExtractTextAfterLabel(p: Para, fieldLabel: string) returns (r: string)
    ensures r == TextAfterLabel(p, fieldLabel)
  {
    var rawText := RawText(p.nodes);
    var visibleText := ScanVisibleText(p.nodes);
    if visibleText != "" {
      if Contains(rawText, fieldLabel) {
        var parts := SplitNSecond(rawText, fieldLabel);
        if parts.Some? {
          var checkVisible := TrimSpace(parts.value);
          if HasSuffix(checkVisible, visibleText) {
            return visibleText;
          }
          return checkVisible;
        }
      }
      return visibleText;
    }
    var textAfterLabel := TrimSpace(TrimPrefix(rawText, fieldLabel));
    var parts := Fields(textAfterLabel);
    if |parts| > 0 {
      return parts[|parts| - 1];
    }
    r := "";
  }

  // ---------------------------------------------------------------------------
  // Profile fields

  /** The profile field a paragraph sets, tested in this order. */
  datatype Field = CountryCode | Sector | Subsector | NoField

  function FieldOf(text: string): Field
  {
    if Contains(text, "Country Code:") then CountryCode
    else if Contains(text, "Sector:") then Sector
    else if Contains(text, "Subsector:") then Subsector
    else NoField
  }

  function LabelOf(f: Field): string
    requires f != NoField
  {
    match f
    case CountryCode => "Country Code:"
    case Sector => "Sector:"
    case Subsector => "Subsector:"
  }

  datatype ProfileFields = ProfileFields(countryCode: string, sector: string, subsector: string)

  function Value(fields: ProfileFields, f: Field): string
    requires f != NoField
  {
    match f
    case CountryCode => fields.countryCode
    case Sector => fields.sector
    case Subsector => fields.subsector
  }

  /** One paragraph's effect on the fields; `extract` reads the text after a
      label, and the handler's is `TextAfterLabel`. */
  function Assign(fields: ProfileFields, p: Para, extract: (Para, string) -> string): ProfileFields
  {
    match FieldOf(RawText(p.nodes))
    case CountryCode => fields.(countryCode := extract(p, "Country Code:"))
    case Sector => fields.(sector := extract(p, "Sector:"))
    case Subsector => fields.(subsector := extract(p, "Subsector:"))
    case NoField => fields
  }

  /** The fields after the paragraphs `paras`, in order, starting empty. */
  function FieldsOf(paras: seq<Para>, extract: (Para, string) -> string): ProfileFields
  {
    if paras == [] then ProfileFields("", "", "")
    else Assign(FieldsOf(paras[..|paras| - 1], extract), paras[|paras| - 1], extract)
  }

  /** A paragraph sets its own field, from the text after that field's label,
      and no other. */
  lemma AssignSetsOneField(fields: ProfileFields, p: Para, f: Field, extract: (Para, string) -> string)
    requires f != NoField
    ensures FieldOf(RawText(p.nodes)) == f ==> Value(Assign(fields, p, extract), f) == extract(p, LabelOf(f))
    ensures FieldOf(RawText(p.nodes)) != f ==> Value(Assign(fields, p, extract), f) == Value(fields, f)
  {
  }

  /** The last paragraph that sets a field decides its value. */
  lemma {:induction false} LastWriterWins(paras: seq<Para>, f: Field, k: nat, extract: (Para, string) -> string)
    requires f != NoField && k < |paras| && FieldOf(RawText(paras[k].nodes)) == f
    requires forall j :: k < j < |paras| ==> FieldOf(RawText(paras[j].nodes)) != f
    ensures Value(FieldsOf(paras, extract), f) == extract(paras[k], LabelOf(f))
    decreases |paras|
  {
    var init := paras[..|paras| - 1];
    var last := paras[|paras| - 1];
    AssignSetsOneField(FieldsOf(init, extract), last, f, extract);
    if k < |init| {
      assert forall j :: k < j < |init| ==> init[j] == paras[j];
      LastWriterWins(init, f, k, extract);
    }
  }

  /** A field no paragraph sets stays "". */
  lemma {:induction false} UnsetFieldEmpty(paras: seq<Para>, f: Field, extract: (Para, string) -> string)
    requires f != NoField
    requires forall j :: 0 <= j < |paras| ==> FieldOf(RawText(paras[j].nodes)) != f
    ensures Value(FieldsOf(paras, extract), f) == ""
    decreases |paras|
  {
    if paras != [] {
      var init := paras[..|paras| - 1];
      AssignSetsOneField(FieldsOf(init, extract), paras[|paras| - 1], f, extract);
      assert forall j :: 0 <= j < |init| ==> init[j] == paras[j];
      UnsetFieldEmpty(init, f, extract);
    }
  }

  /** The paragraph loop over `div#profile-info`. */
  method ExtractFields(paras: seq<Para>) returns (countryCode: string, sector: string, subsector: string)
    ensures ProfileFields(countryCode, sector, subsector) == FieldsOf(paras, TextAfterLabel)
  {
    countryCode, sector, subsector := "", "", "";
    var i := 0;
    while i < |paras|
      invariant i <= |paras| && ProfileFields(countryCode, sector, subsector) == FieldsOf(paras[..i], TextAfterLabel)
    {
      assert paras[..i + 1][..i] == paras[..i];
      var p := paras[i];
      assert FieldsOf(paras[..i + 1], TextAfterLabel) == Assign(FieldsOf(paras[..i], TextAfterLabel), p, TextAfterLabel);
      var text := RawText(p.nodes);
      if Contains(text, "Country Code:") {
        countryCode := ExtractTextAfterLabel(p, "Country Code:");
      } else if Contains(text, "Sector:") {
        sector := ExtractTextAfterLabel(p, "Sector:");
      } else if Contains(text, "Subsector:") {
        subsector := ExtractTextAfterLabel(p, "Subsector:");
      }
      i := i + 1;
    }
    assert paras[..i] == paras;
  }

  // ---------------------------------------------------------------------------
  // Company name

  /** The position of the first `h5` whose trimmed text is "Profile", or the
      number of headings. */
  function ProfileHeading(headings: seq<Heading>): (i: nat)
    ensures i <= |headings|
    ensures i < |headings| ==> TrimSpace(headings[i].text) == "Profile"
    ensures forall k :: 0 <= k < i ==> TrimSpace(headings[k].text) != "Profile"
  {
    if headings == [] then 0
    else if TrimSpace(headings[0].text) == "Profile" then 0
    else
      var i := ProfileHeading(headings[1..]);
      assert forall k :: 1 <= k <= i ==> headings[k] == headings[1..][k - 1];
      1 + i
  }

  /** The company name: the trimmed stock heading, or else the trimmed strong
      of the `h6` after the first "Profile" heading, or else "". */
  function CompanyName(page: ProfilePage): (name: string)
    ensures Trimmed(name)
  {
    var primary := TrimSpace(page.stockHeading);
    if primary != [] then primary
    else
      var i := ProfileHeading(page.headings);
      if i < |page.headings| then TrimSpace(page.headings[i].nextStrong) else ""
  }

  /** The stock heading wins whenever it is not blank. */
  lemma HeadingFirst(page: ProfilePage)
    requires TrimSpace(page.stockHeading) != []
    ensures CompanyName(page) == TrimSpace(page.stockHeading)
  {
  }

  method FindCompanyName(page: ProfilePage) returns (companyName: string)
    ensures companyName == CompanyName(page)
  {
    companyName := TrimSpace(page.stockHeading);
    if companyName == "" {
      var i := 0;
      while i < |page.headings|
        invariant i <= |page.headings|
        invariant forall k :: 0 <= k < i ==> TrimSpace(page.headings[k].text) != "Profile"
      {
        if TrimSpace(page.headings[i].text) == "Profile" {
          companyName := TrimSpace(page.headings[i].nextStrong);
          return;
        }
        i := i + 1;
      }
    }
  }

  // ---------------------------------------------------------------------------
  // The profile handler

  function ProfileCommand(code: string): Command
  {
    Command("stock:fetch:profile", [code])
  }

  /** A column that is valid exactly when its text is not empty. */
  function Nullable(s: string): (n: NullString)
    ensures n.value == s && (n.valid <==> s != [])
  {
    NullString(s, s != [])
  }

  /** The fields of a profile page; all "" when it has no `div#profile-info`. */
  function PageFields(page: ProfilePage): ProfileFields
  {
    match page.profileInfo
    case None => ProfileFields("", "", "")
    case Some(paras) => FieldsOf(paras, TextAfterLabel)
  }

  /** `handlerStockFetchProfile`: one code; the page at the profile URL followed
      by the code; a company name that must not be empty; the three fields,
      each valid exactly when non-empty; no listing date; and one upsert. */
  function Profile(cfg: Config.Config, cmd: Command, env: StockEnv): (o: Outcome<CompanyRow>)
    ensures |cmd.args| != 1 ==> o == Outcome(Some(Usage(cmd.name)), None)
    ensures o.upserted.Some? ==>
      var row := o.upserted.value;
      |cmd.args| == 1 && row.stockCode == cmd.args[0] && row.companyName != []
      && row.countryCode.valid == (row.countryCode.value != [])
      && row.sector.valid == (row.sector.value != [])
      && row.subsector.valid == (row.subsector.value != [])
      && !row.listingDateValid
      && row.profileSourceUrl == NullString(cfg.i3InvestorStockProfileUrl + cmd.args[0], true)
    ensures o.err == None <==> o.upserted.Some? && env.upsertCompany(o.upserted.value)
  {
    if |cmd.args| != 1 then Outcome(Some(Usage(cmd.name)), None)
    else
      var code := cmd.args[0];
      var url := cfg.i3InvestorStockProfileUrl + code;
      var reply := env.profilePage(url);
      if PageError(reply, url).Some? then Outcome(PageError(reply, url), None)
      else
        var page := reply.body.value;
        var name := CompanyName(page);
        var fields := PageFields(page);
        if name == [] then Outcome(Some(CompanyNameMissing(code, url)), None)
        else
          var row := CompanyRow(code, name, Nullable(fields.countryCode), Nullable(fields.sector),
                                Nullable(fields.subsector), false, NullString(url, true));
          Outcome(if env.upsertCompany(row) then None else Some(ProfileStoreFailed(code)), Some(row))
  }

  /** With a blank stock heading, the name is the trimmed strong of the `h6`
      after the first heading whose trimmed text is "Profile". */
  lemma ProfileHeadingFallback(page: ProfilePage, k: nat)
    requires TrimSpace(page.stockHeading) == []
    requires k < |page.headings| && TrimSpace(page.headings[k].text) == "Profile"
    requires forall j :: 0 <= j < k ==> TrimSpace(page.headings[j].text) != "Profile"
    ensures CompanyName(page) == TrimSpace(page.headings[k].nextStrong)
  {
    assert ProfileHeading(page.headings) == k;
  }

  /** With a blank stock heading and no "Profile" heading, there is no name. */
  lemma NoHeadingNoName(page: ProfilePage)
    requires TrimSpace(page.stockHeading) == []
    requires forall j :: 0 <= j < |page.headings| ==> TrimSpace(page.headings[j].text) != "Profile"
    ensures CompanyName(page) == []
  {
    assert ProfileHeading(page.headings) == |page.headings|;
  }

  /** A stored profile row is read off the fetched page: its name is the
      page's company name and its three fields are the page's fields. */
  lemma StoredProfileIsPage(cfg: Config.Config, code: string, env: StockEnv)
    requires Profile(cfg, ProfileCommand(code), env).upserted.Some?
    ensures var url := cfg.i3InvestorStockProfileUrl + code;
      PageError(env.profilePage(url), url).None?
    ensures var url := cfg.i3InvestorStockProfileUrl + code;
      var page := env.profilePage(url).body.value;
      var row := Profile(cfg, ProfileCommand(code), env).upserted.value;
      row.companyName == CompanyName(page)
      && row.countryCode == Nullable(PageFields(page).countryCode)
      && row.sector == Nullable(PageFields(page).sector)
      && row.subsector == Nullable(PageFields(page).subsector)
  {
  }

  /** A page that loads and names the company is upserted: the row holds the
      code, the name, the three page fields, no listing date and the page URL. */
  lemma ProfileStoredWhenNamed(cfg: Config.Config, code: string, env: StockEnv)
    requires var url := cfg.i3InvestorStockProfileUrl + code;
      PageError(env.profilePage(url), url).None? && CompanyName(env.profilePage(url).body.value) != []
    ensures var url := cfg.i3InvestorStockProfileUrl + code;
      var page := env.profilePage(url).body.value;
      Profile(cfg, ProfileCommand(code), env).upserted
      == Some(CompanyRow(code, CompanyName(page), Nullable(PageFields(page).countryCode),
                         Nullable(PageFields(page).sector), Nullable(PageFields(page).subsector),
                         false, NullString(url, true)))
  {
  }

  /** A page without a company name is an error and nothing is upserted. */
  lemma NamelessProfileRejected(cfg: Config.Config, code: string, env: StockEnv)
    requires var url := cfg.i3InvestorStockProfileUrl + code;
      PageError(env.profilePage(url), url).None? && CompanyName(env.profilePage(url).body.value) == []
    ensures Profile(cfg, ProfileCommand(code), env)
      == Outcome(Some(CompanyNameMissing(code, cfg.i3InvestorStockProfileUrl + code)), None)
  {
  }

  method FetchProfile(cfg: Config.Config, cmd: Command, env: StockEnv) returns (o: Outcome<CompanyRow>)
    ensures o == Profile(cfg, cmd, env)
  {
    if |cmd.args| != 1 {
      return Outcome(Some(Usage(cmd.name)), None);
    }
    var code := cmd.args[0];
    var url := cfg.i3InvestorStockProfileUrl + code;
    var reply := env.profilePage(url);
    var pageErr := PageError(reply, url);
    if pageErr.Some? {
      return Outcome(pageErr, None);
    }
    var page := reply.body.value;
    var companyName := FindCompanyName(page);
    var countryCode, sector, subsector := "", "", "";
    if page.profileInfo.Some? {
      countryCode, sector, subsector := ExtractFields(page.profileInfo.value);
    }
    if companyName == "" {
      return Outcome(Some(CompanyNameMissing(code, url)), None);
    }
    var row := CompanyRow(code, companyName, Nullable(countryCode), Nullable(sector),
                          Nullable(subsector), false, NullString(url, true));
    if !env.upsertCompany(row) {
      return Outcome(Some(ProfileStoreFailed(code)), Some(row));
    }
    o := Outcome(None, Some(row));
  }

  // ---------------------------------------------------------------------------
  // Batches over the stock list

  /** One call of `visit` per code, in order. */
  function Each<T>(codes: seq<string>, visit: string -> T): (r: seq<T>)
    ensures |r| == |codes|
  {
    if codes == [] then [] else Each(codes[..|codes| - 1], visit) + [visit(codes[|codes| - 1])]
  }

  /** The k-th result is the visit of the k-th code. */
  lemma {:induction false} EachAt<T>(codes: seq<string>, visit: string -> T, k: nat)
    requires k < |codes|
    ensures Each(codes, visit)[k] == visit(codes[k])
    decreases |codes|
  {
    var init := codes[..|codes| - 1];
    if k < |init| {
      EachAt(init, visit, k);
      assert init[k] == codes[k];
    }
  }

  /** One price call per code, in order. */
  function Prices(cfg: Config.Config, env: StockEnv, codes: seq<string>): seq<Outcome<PriceRow>>
  {
    Each(codes, code => Price(cfg, PriceCommand(code), env))
  }

  /** The k-th outcome is the price call for the k-th code. */
  lemma PricesAt(cfg: Config.Config, env: StockEnv, codes: seq<string>, k: nat)
    requires k < |codes|
    ensures |Prices(cfg, env, codes)| == |codes|
    ensures Prices(cfg, env, codes)[k] == Price(cfg, PriceCommand(codes[k]), env)
  {
    EachAt(codes, code => Price(cfg, PriceCommand(code), env), k);
  }

  /** `handlerStockFetchPriceAll`: no arguments; then one price call for each
      configured code, in order; a failed call is logged and the loop goes on;
      the handler returns nil. */
  method PriceAll(cfg: Config.Config, cmd: Command, env: StockEnv)
    returns (err: Option<Error>, outcomes: seq<Outcome<PriceRow>>)
    ensures |cmd.args| != 0 ==> err == Some(Usage(cmd.name)) && outcomes == []
    ensures |cmd.args| == 0 ==> err == None && outcomes == Prices(cfg, env, cfg.stockList)
  {
    outcomes := [];
    if |cmd.args| != 0 {
      return Some(Usage(cmd.name)), outcomes;
    }
    var stockCodes := cfg.stockList;
    var i := 0;
    while i < |stockCodes|
      invariant i <= |stockCodes| && outcomes == Prices(cfg, env, stockCodes[..i])
    {
      assert stockCodes[..i + 1][..i] == stockCodes[..i];
      var o := FetchPrice(cfg, PriceCommand(stockCodes[i]), env);
      outcomes := outcomes + [o];
      i := i + 1;
    }
    assert stockCodes[..i] == stockCodes;
    err := None;
  }

  /** For each code, the profile call and then the price call. */
  datatype CodeOutcome = CodeOutcome(profile: Outcome<CompanyRow>, price: Outcome<PriceRow>)

  function ProfilesAndPrices(cfg: Config.Config, env: StockEnv, codes: seq<string>): seq<CodeOutcome>
  {
    Each(codes, code => CodeOutcome(Profile(cfg, ProfileCommand(code), env), Price(cfg, PriceCommand(code), env)))
  }

  /** Both calls are made for every code, the price call whatever became of the
      profile call. */
  lemma ProfilesAndPricesAt(cfg: Config.Config, env: StockEnv, codes: seq<string>, k: nat)
    requires k < |codes|
    ensures |ProfilesAndPrices(cfg, env, codes)| == |codes|
    ensures ProfilesAndPrices(cfg, env, codes)[k].profile == Profile(cfg, ProfileCommand(codes[k]), env)
    ensures ProfilesAndPrices(cfg, env, codes)[k].price == Price(cfg, PriceCommand(codes[k]), env)
  {
    EachAt(codes, code => CodeOutcome(Profile(cfg, ProfileCommand(code), env), Price(cfg, PriceCommand(code), env)), k);
  }

  /** `handlerStockFetchPriceAllAndProfiles`: no arguments; an empty list
      returns at once; otherwise, for each configured code in order, a profile
      call and then a price call, each error logged and the loop going on; the
      handler returns nil. */
  method ProfileAll(cfg: Config.Config, cmd: Command, env: StockEnv)
    returns (err: Option<Error>, outcomes: seq<CodeOutcome>)
    ensures |cmd.args| != 0 ==> err == Some(Usage(cmd.name)) && outcomes == []
    ensures |cmd.args| == 0 ==> err == None && outcomes == ProfilesAndPrices(cfg, env, cfg.stockList)
  {
    outcomes := [];
    if |cmd.args| != 0 {
      return Some(Usage(cmd.name)), outcomes;
    }
    var stockCodes := cfg.stockList;
    if |stockCodes| == 0 {
      return None, outcomes;
    }
    var i := 0;
    while i < |stockCodes|
      invariant i <= |stockCodes| && outcomes == ProfilesAndPrices(cfg, env, stockCodes[..i])
    {
      assert stockCodes[..i + 1][..i] == stockCodes[..i];
      var profile := FetchProfile(cfg, ProfileCommand(stockCodes[i]), env);
      var price := FetchPrice(cfg, PriceCommand(stockCodes[i]), env);
      outcomes := outcomes + [CodeOutcome(profile, price)];
      i := i + 1;
    }
    assert stockCodes[..i] == stockCodes;
    err := None;
  }
}
