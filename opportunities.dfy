/** The opportunity record the crawler service produces and the scan panel lists. */
module Opportunities {
  import opened Json

  /** `{title, source, details}`: the title is whatever the crawl produced, the details an open mapping. */
  datatype Opportunity = Opportunity(title: Value, source: string, details: map<string, Value>)
}
