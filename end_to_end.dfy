/**
 * What the scan widget's cards show for records the crawler service
 * produces, where Python's and JavaScript's truth tests meet.
 */
module EndToEnd {
  import opened Wrappers
  import opened Json
  import opened Opportunities
  import CrawlerService
  import ScanPanel
  import Text

  /** A crawled record's card shows the crawled title itself, never the untitled placeholder. */
  lemma CrawledCardsShowTitle(url: string, outcome: CrawlerService.CrawlOutcome, k: nat)
    requires k < |CrawlerService.Gathered(url, outcome)|
    ensures var rec := CrawlerService.Gathered(url, outcome)[k];
      ScanPanel.CardFor(rec).heading == rec.title && ScanPanel.CardFor(rec).href == url
  {
  }

  /**
   * A crawled record shows a deadline line exactly when its item had a truthy
   * `deadline` or `deadline_date`, or when the fallback key held an empty list
   * or dict, which Python treats as false and JavaScript as true.
   */
  lemma CrawledDeadlineShown(d: map<string, Value>, url: string)
    ensures var a, b := Get(d, "deadline"), Get(d, "deadline_date");
      (ScanPanel.CardFor(CrawlerService.Shape(d, url)).deadline.Some?
       <==> PyTruthy(a) || PyTruthy(b) || (!PyTruthy(a) && (b == Arr([]) || b == Obj(map[]))))
  {
    var a, b := Get(d, "deadline"), Get(d, "deadline_date");
    TruthAgrees(a);
    TruthAgrees(b);
  }

  /** The key-missing record's card: its title, the raw source "System", and no deadline line. */
  lemma ApiKeyMissingCard()
    ensures ScanPanel.CardFor(CrawlerService.ApiKeyMissing)
         == ScanPanel.Card(Str("Error: API Key Missing"), "System", "System", None)
  {
    var source := "System";
    assert source[0] == 'S';
    assert !Text.StartsWith(source, "http");
  }
}
