/**
 * The backend's opportunity crawler: it crawls one randomly chosen tender
 * portal, shapes the crawled items into opportunity records, and falls back
 * to sector-specific mock records when the crawl yields nothing or fails.
 * The crawling service, the random choice and the clock are parameters.
 */
module CrawlerService {
  import opened Wrappers
  import opened Json
  import opened Opportunities
  import Text

  const Egp := "https://production.egp.gov.et/"
  const Ppa := "https://www.ppa.gov.et/"
  const Merkato := "https://tender.2merkato.com/"
  const EthioTelecom := "https://www.ethiotelecom.et/tender/"
  const EthiopianTender := "https://www.ethiopiantender.com/"
  const UndpEthiopia := "https://www.undp.org/ethiopia"

  /** The three registry sources the live demo chooses among: the first aggregator, government portal and corporate portal. */
  const DemoTargets: seq<string> := [Merkato, Egp, EthioTelecom]

  /** The single record returned when the crawling client could not be created. */
  const ApiKeyMissing := Opportunity(Str("Error: API Key Missing"), "System",
                                     map["description" := Str("Please set OXYLABS_API_KEY")])

  /**
   * How one `crawl` call ends: it raises; it returns a falsy result or one
   * without a `data` attribute; or it returns a result whose `data` is `raw`.
   */
  datatype CrawlOutcome = CrawlRaised | NoData | Data(raw: Value)

  // ---------------------------------------------------------------- _process_results

  /** `item.get('data', {})` and the `.get` calls on its result succeed: a dict whose `data`, if present, is a dict. */
  predicate ItemReadable(item: Value) {
    item.Obj? && ("data" in item.fields ==> item.fields["data"].Obj?)
  }

  predicate AllReadable(items: seq<Value>) {
    forall i :: 0 <= i < |items| ==> ItemReadable(items[i])
  }

  /** `item.get('data', {})`. */
  function ItemData(item: Value): map<string, Value>
    requires ItemReadable(item)
  {
    if "data" in item.fields then item.fields["data"].fields else map[]
  }

  /** `data.get('title') or data.get('tender_title')`. */
  function RecordTitle(d: map<string, Value>): (t: Value)
    ensures PyTruthy(Get(d, "title")) ==> t == Get(d, "title")
    ensures !PyTruthy(Get(d, "title")) ==> t == Get(d, "tender_title")
  {
    PyOr(Get(d, "title"), Get(d, "tender_title"))
  }

  /**
   * The record built from one titled item: its title, the given source, and
   * three details each taking the first truthy of two keys.
   */
  function Shape(d: map<string, Value>, sourceUrl: string): (r: Opportunity)
    ensures r.source == sourceUrl && r.title == RecordTitle(d)
    ensures r.details.Keys == {"deadline_date", "issuing_authority", "budget"}
    ensures r.details["deadline_date"] == PyOr(Get(d, "deadline"), Get(d, "deadline_date"))
    ensures r.details["issuing_authority"] == PyOr(Get(d, "source_organization"), Get(d, "issuing_authority"))
    ensures r.details["budget"] == PyOr(Get(d, "budget_estimate"), Get(d, "budget_etb"))
  {
    Opportunity(RecordTitle(d), sourceUrl, map[
      "deadline_date" := PyOr(Get(d, "deadline"), Get(d, "deadline_date")),
      "issuing_authority" := PyOr(Get(d, "source_organization"), Get(d, "issuing_authority")),
      "budget" := PyOr(Get(d, "budget_estimate"), Get(d, "budget_etb"))])
  }

  /** The item keeps a place in the output: its data has a truthy title or tender title. */
  predicate Titled(item: Value)
    requires ItemReadable(item)
  {
    PyTruthy(RecordTitle(ItemData(item)))
  }

  /** The records of the titled items, in item order. */
  function Shaped(items: seq<Value>, sourceUrl: string): (r: seq<Opportunity>)
    requires AllReadable(items)
    ensures |r| <= |items|
    ensures forall k :: 0 <= k < |r| ==> r[k].source == sourceUrl && PyTruthy(r[k].title)
  {
    if items == [] then []
    else
      var last := items[|items| - 1];
      Shaped(items[..|items| - 1], sourceUrl) + (if Titled(last) then [Shape(ItemData(last), sourceUrl)] else [])
  }

  /**
   * What `_process_results(raw_data, source_url)` returns, None when it raises:
   * a falsy `raw_data` gives []; iterating any other non-list raises (a number
   * or True is not iterable, the characters of a string and the keys of a dict
   * have no `.get`); so does any item that is not readable.
   */
  function ProcessedResults(raw: Value, sourceUrl: string): (r: Option<seq<Opportunity>>)
    ensures !PyTruthy(raw) ==> r == Some([])
    ensures PyTruthy(raw) && !raw.Arr? ==> r == None
    ensures PyTruthy(raw) && raw.Arr? ==> (r.Some? <==> AllReadable(raw.elems))
    ensures r.Some? ==> forall k :: 0 <= k < |r.value| ==> r.value[k].source == sourceUrl && PyTruthy(r.value[k].title)
  {
    if !PyTruthy(raw) then Some([])
    else if !raw.Arr? then None
    else if AllReadable(raw.elems) then Some(Shaped(raw.elems, sourceUrl))
    else None
  }

  /** `_process_results`: the loop over the crawled items appending one record per titled item. */
  method ProcessResults(raw: Value, sourceUrl: string) returns (r: Option<seq<Opportunity>>)
    ensures r == ProcessedResults(raw, sourceUrl)
  {
    var processed: seq<Opportunity> := [];
    if !PyTruthy(raw) {
      return Some(processed);
    }
    if !raw.Arr? {
      return None;
    }
    var items := raw.elems;
    for i := 0 to |items|
      invariant AllReadable(items[..i])
      invariant processed == Shaped(items[..i], sourceUrl)
    {
      assert items[..i + 1][..i] == items[..i];
      var item := items[i];
      if !item.Obj? {
        return None;
      }
      var data := if "data" in item.fields then item.fields["data"] else Obj(map[]);
      if !data.Obj? {
        return None;
      }
      var title := RecordTitle(data.fields);
      if !PyTruthy(title) {
        continue;
      }
      processed := processed + [Shape(data.fields, sourceUrl)];
    }
    assert items[..|items|] == items;
    return Some(processed);
  }

  /** Shaping works item by item and keeps order: the records of a concatenation are the concatenated records. */
  lemma {:induction false} ShapedAppend(a: seq<Value>, b: seq<Value>, sourceUrl: string)
    requires AllReadable(a) && AllReadable(b)
    ensures AllReadable(a + b)
    ensures Shaped(a + b, sourceUrl) == Shaped(a, sourceUrl) + Shaped(b, sourceUrl)
    decreases |b|
  {
    assert forall i :: 0 <= i < |a + b| ==> (a + b)[i] == if i < |a| then a[i] else b[i - |a|];
    if b == [] {
      assert a + b == a;
    } else {
      var init := b[..|b| - 1];
      assert (a + b)[..|a + b| - 1] == a + init;
      ShapedAppend(a, init, sourceUrl);
    }
  }

  /** One item yields its record exactly when it is titled. */
  lemma ShapedSingle(x: Value, sourceUrl: string)
    requires ItemReadable(x)
    ensures Shaped([x], sourceUrl) == if Titled(x) then [Shape(ItemData(x), sourceUrl)] else []
  {
    assert [x][..0] == [];
  }

  /** Every titled item's record is in the output. */
  lemma {:induction false} ShapedKeepsTitled(items: seq<Value>, i: nat, sourceUrl: string)
    requires AllReadable(items) && i < |items| && Titled(items[i])
    ensures Shape(ItemData(items[i]), sourceUrl) in Shaped(items, sourceUrl)
  {
    var a, b := items[..i], items[i..];
    assert items == a + b;
    assert AllReadable(a) && AllReadable(b);
    ShapedAppend(a, b, sourceUrl);
    assert b == [items[i]] + b[1..];
    assert AllReadable([items[i]]) && AllReadable(b[1..]);
    ShapedAppend([items[i]], b[1..], sourceUrl);
    ShapedSingle(items[i], sourceUrl);
  }

  /** When no item is titled, nothing is produced. */
  lemma {:induction false} ShapedNoneTitled(items: seq<Value>, sourceUrl: string)
    requires AllReadable(items)
    requires forall i :: 0 <= i < |items| ==> !Titled(items[i])
    ensures Shaped(items, sourceUrl) == []
  {
    if items != [] {
      ShapedNoneTitled(items[..|items| - 1], sourceUrl);
    }
  }

  // ---------------------------------------------------------------- _get_fallback_data

  /** `sector.lower() if sector else 'general'`. */
  function SectorKey(sector: Option<string>): (k: string)
    ensures sector == None || sector == Some("") ==> k == "general"
    ensures sector.Some? && sector.value != "" ==> k == Text.AsciiLower(sector.value)
  {
    if sector.Some? && sector.value != "" then Text.AsciiLower(sector.value) else "general"
  }

  /** `f"{x}"` for a string or None. */
  function PyStr(s: Option<string>): string {
    if s.Some? then s.value else "None"
  }

  /** `location or default`. */
  function LocationOr(location: Option<string>, default: string): (r: string)
    ensures location.Some? && location.value != "" ==> r == location.value
    ensures location == None || location == Some("") ==> r == default
  {
    if location.Some? && location.value != "" then location.value else default
  }

  /**
   * A mock record. Its deadline is the date `days` from now as the clock
   * formats it, `stamp(days)`.
   */
  function Mock(title: string, source: string, authority: string, deadline: string, budget: string): (r: Opportunity)
    ensures r.title == Str(title) && r.source == source
    ensures r.details.Keys == {"issuing_authority", "deadline_date", "budget_etb"}
    ensures r.details["deadline_date"] == Str(deadline) && JsTruthy(r.details["deadline_date"]) == (deadline != "")
  {
    Opportunity(Str(title), source, map[
      "issuing_authority" := Str(authority),
      "deadline_date" := Str(deadline),
      "budget_etb" := Str(budget)])
  }

  predicate IsMockedSector(key: string) {
    key == "construction" || key == "technology" || key == "agriculture" || key == "healthcare"
  }

  /** The mock database keyed by sector: `sector_mocks.get(key)`, None for a key it does not hold. */
  function SectorMocks(key: string, location: Option<string>, stamp: int -> string): (m: Option<seq<Opportunity>>)
    ensures m.Some? <==> IsMockedSector(key)
    ensures m.Some? ==> |m.value| == 3
  {
    if key == "construction" then Some([
        Mock("Construction of G+4 Mixed Use Building in " + LocationOr(location, "Addis Ababa"), Merkato,
             "Commercial Bank of Ethiopia", stamp(21), "Confidential"),
        Mock("Road Maintenance Project: Lot 3", Ppa, "Ethiopian Roads Authority", stamp(14), "45,000,000"),
        Mock("Supply of Cement and Rebar for Housing Project", Egp, "Federal Housing Corporation", stamp(10), "12,500,000")])
    else if key == "technology" then Some([
        Mock("Supply of High Performance Computing Servers for " + LocationOr(location, "Head Office"), EthioTelecom,
             "Ethio Telecom", stamp(7), "12,000,000"),
        Mock("Procurement of Laptop Computers and Accessories", Egp,
             "Ministry of Innovation and Technology", stamp(15), "3,000,000"),
        Mock("Development of National Digital ID System Module", UndpEthiopia, "UNDP Ethiopia", stamp(30), "150,000 USD")])
    else if key == "agriculture" then Some([
        Mock("Supply of 5000 Quintals of Urea Fertilizer", EthiopianTender,
             "Agricultural Businesses Corporation", stamp(5), "Open"),
        Mock("Procurement of Modern Irrigation Pumps", Ppa, "Ministry of Agriculture", stamp(25), "8,200,000"),
        Mock("Tender for Supply of Poultry Feed", Merkato, "Alema Koudijs Feed PLC", stamp(12), "2,000,000")])
    else if key == "healthcare" then Some([
        Mock("Procurement of Medical Imaging Equipment (MRI/CT)", Ppa,
             "Ethiopian Pharmaceuticals Supply Agency", stamp(45), "120,000,000"),
        Mock("Supply of Laboratory Reagents and Chemicals", Merkato, "Black Lion Hospital", stamp(8), "4,500,000"),
        Mock("Construction of Regional Health Center", Egp, "Oromia Health Bureau", stamp(60), "35,000,000")])
    else None
  }

  /** The default record for a sector without mocks; it names the sector as given, not lower-cased. */
  function GeneralMock(sector: Option<string>): (r: Opportunity)
    ensures r.title == Str("General Procurement Opportunity in " + PyStr(sector)) && r.source == Ppa
    ensures r.details == map["issuing_authority" := Str("Federal Govt"), "deadline_date" := Str("2024-12-31"),
                             "budget_etb" := Str("Open")]
  {
    Mock("General Procurement Opportunity in " + PyStr(sector), Ppa, "Federal Govt", "2024-12-31", "Open")
  }

  /**
   * `_get_fallback_data(sector, location)`: `sector_mocks.get(sector_key, [general record])`.
   * Each of the four mocked sectors yields three records; any other key,
   * 'general' included, yields the one general record naming the sector.
   */
  function FallbackData(sector: Option<string>, location: Option<string>, stamp: int -> string): (r: seq<Opportunity>)
    ensures IsMockedSector(SectorKey(sector)) ==> |r| == 3
    ensures !IsMockedSector(SectorKey(sector)) ==> r == [GeneralMock(sector)]
  {
    match SectorMocks(SectorKey(sector), location, stamp)
    case Some(records) => records
    case None => [GeneralMock(sector)]
  }

  /** The first construction mock names the location, or Addis Ababa when it is missing or empty. */
  lemma ConstructionMockNamesLocation(location: Option<string>, stamp: int -> string)
    ensures FallbackData(Some("construction"), location, stamp)[0].title
         == Str("Construction of G+4 Mixed Use Building in " + LocationOr(location, "Addis Ababa"))
  {
    Text.AsciiLowerOfLower("construction");
  }

  /** The first technology mock names the location, or Head Office when it is missing or empty. */
  lemma TechnologyMockNamesLocation(location: Option<string>, stamp: int -> string)
    ensures FallbackData(Some("technology"), location, stamp)[0].title
         == Str("Supply of High Performance Computing Servers for " + LocationOr(location, "Head Office"))
  {
    Text.AsciiLowerOfLower("technology");
  }

  /** Matching is case-insensitive for the mocked sectors: 'Construction' gets the construction mocks. */
  lemma FallbackIgnoresCase(sector: string, location: Option<string>, stamp: int -> string)
    requires IsMockedSector(Text.AsciiLower(sector))
    ensures FallbackData(Some(sector), location, stamp) == FallbackData(Some(Text.AsciiLower(sector)), location, stamp)
  {
    Text.AsciiLowerIdempotent(sector);
  }

  // ---------------------------------------------------------------- find_tenders

  /** The records one crawled url contributes; a crawl or a processing step that raises contributes none. */
  function Gathered(url: string, outcome: CrawlOutcome): (r: seq<Opportunity>)
    ensures !outcome.Data? ==> r == []
    ensures outcome.Data? && ProcessedResults(outcome.raw, url).None? ==> r == []
    ensures outcome.Data? && ProcessedResults(outcome.raw, url).Some? ==> r == ProcessedResults(outcome.raw, url).value
    ensures forall k :: 0 <= k < |r| ==> r[k].source == url && PyTruthy(r[k].title)
  {
    match outcome
    case Data(raw) =>
      (match ProcessedResults(raw, url)
       case Some(p) => p
       case None => [])
    case _ => []
  }

  /** The aggregate over `urls`, in crawl order: every record comes from one of the urls and is titled. */
  function Harvest(urls: seq<string>, crawl: string -> CrawlOutcome): (r: seq<Opportunity>)
    ensures forall k :: 0 <= k < |r| ==> r[k].source in urls && PyTruthy(r[k].title)
  {
    if urls == [] then [] else Harvest(urls[..|urls| - 1], crawl) + Gathered(urls[|urls| - 1], crawl(urls[|urls| - 1]))
  }

  /**
   * What `find_tenders` returns: the key-missing record without a crawler;
   * the fallback when schema generation raises or the aggregate is empty;
   * otherwise the aggregate. It is never empty.
   */
  function FindTendersResult(crawlerAvailable: bool, schemaRaises: bool, target: string,
                             crawl: string -> CrawlOutcome, sector: Option<string>,
                             location: Option<string>, stamp: int -> string): (r: seq<Opportunity>)
    ensures |r| >= 1
    ensures !crawlerAvailable ==> r == [ApiKeyMissing]
  {
    if !crawlerAvailable then [ApiKeyMissing]
    else if schemaRaises then FallbackData(sector, location, stamp)
    else
      var aggregated := Harvest([target], crawl);
      if aggregated == [] then FallbackData(sector, location, stamp) else aggregated
  }

  /**
   * `find_tenders`: `choice` is the index `random.choice` draws, `crawl` the
   * crawling service, `schemaRaises` whether `generate_schema` raises.
   */
  method FindTenders(crawlerAvailable: bool, choice: nat, schemaRaises: bool, crawl: string -> CrawlOutcome,
                     sector: Option<string>, location: Option<string>, stamp: int -> string)
    returns (r: seq<Opportunity>)
    requires choice < |DemoTargets|
    ensures r == FindTendersResult(crawlerAvailable, schemaRaises, DemoTargets[choice], crawl, sector, location, stamp)
  {
    if !crawlerAvailable {
      return [ApiKeyMissing];
    }
    var targetUrls := [DemoTargets[choice]];
    var aggregated: seq<Opportunity> := [];
    if schemaRaises {
      return FallbackData(sector, location, stamp);
    }
    for i := 0 to |targetUrls|
      invariant aggregated == Harvest(targetUrls[..i], crawl)
    {
      assert targetUrls[..i + 1][..i] == targetUrls[..i];
      var url := targetUrls[i];
      var outcome := crawl(url);
      if outcome.Data? {
        var chunk := ProcessResults(outcome.raw, url);
        if chunk.Some? {
          aggregated := aggregated + chunk.value;
        }
      }
    }
    assert targetUrls[..|targetUrls|] == targetUrls;
    if aggregated == [] {
      return FallbackData(sector, location, stamp);
    }
    return aggregated;
  }

  /**
   * A crawl of the target that yields titled records returns exactly those
   * records, every one with the target as its source; any failure of the
   * crawl or of its processing, or a crawl without titled records, returns
   * the fallback.
   */
  lemma FindTendersLiveOrFallback(schemaRaises: bool, target: string, crawl: string -> CrawlOutcome,
                                  sector: Option<string>, location: Option<string>, stamp: int -> string)
    ensures var r := FindTendersResult(true, schemaRaises, target, crawl, sector, location, stamp);
      var live := Gathered(target, crawl(target));
      && (!schemaRaises && live != [] ==> r == live && forall k :: 0 <= k < |r| ==> r[k].source == target)
      && (schemaRaises || live == [] ==> r == FallbackData(sector, location, stamp))
  {
    assert [target][..0] == [];
    assert Harvest([target], crawl) == Gathered(target, crawl(target));
  }

  /**
   * A failing url is skipped: when the crawl raises, returns no data, or its
   * data makes `_process_results` raise, `find_tenders` goes on and, with
   * nothing aggregated, returns the fallback.
   */
  lemma FindTendersSkipsFailingCrawl(target: string, crawl: string -> CrawlOutcome,
                                     sector: Option<string>, location: Option<string>, stamp: int -> string)
    requires crawl(target).CrawlRaised? || crawl(target).NoData?
          || (crawl(target).Data? && ProcessedResults(crawl(target).raw, target).None?)
    ensures FindTendersResult(true, false, target, crawl, sector, location, stamp) == FallbackData(sector, location, stamp)
  {
    FindTendersLiveOrFallback(false, target, crawl, sector, location, stamp);
  }
}
