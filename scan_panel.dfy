/**
 * The opportunity-scan widget: a sector selector and a location field whose
 * button posts the pair to the scan endpoint and lists the opportunities that
 * come back, with a success notification or an error line. The network call
 * and the JSON parse are an abstract outcome.
 */
module ScanPanel {
  import opened Wrappers
  import opened Json
  import opened Opportunities
  import Text

  const InitialSector := "construction"
  const InitialLocation := "Addis Ababa"
  const FetchFailed := "Failed to fetch opportunities"
  const ConnectionFailed := "Connection failed. Is the backend running?"
  const Untitled := "Untitled Opportunity"
  const NoticePrefix := "\U{2728} Success! We found "
  const NoticeMiddle := " active opportunities in "

  /** The body posted to the scan endpoint. */
  datatype ScanRequest = ScanRequest(sector: string, location: string)

  /** The parsed response body `{success, opportunities, error?}`. */
  datatype ScanResponse = ScanResponse(success: bool, opportunities: seq<Opportunity>, error: Option<string>)

  /** How the awaited fetch and parse end: a parsed body, or a thrown fault. */
  datatype ScanOutcome = Parsed(data: ScanResponse) | Faulted

  /** The success banner, interpolating the number of opportunities and the submitted location. */
  function SuccessNotice(count: nat, location: string): (s: string)
    ensures |NoticePrefix| + |location| + 1 < |s|
    ensures s[..|NoticePrefix|] == NoticePrefix
    ensures s[|s| - |location| - 1..] == location + "."
  {
    NoticePrefix + Text.NatToString(count) + NoticeMiddle + location + "."
  }

  /** The banner names the submitted location, and its numeral reads back as the count. */
  lemma SuccessNoticeMentions(count: nat, location: string)
    ensures var s, d := SuccessNotice(count, location), Text.NatToString(count);
      && s[|NoticePrefix|..|NoticePrefix| + |d|] == d
      && Text.DecimalValue(d) == count
      && s[|NoticePrefix| + |d| + |NoticeMiddle|..|s| - 1] == location
  {
    Text.DecimalRoundTrip(count);
  }

  /** `data.error || 'Failed to fetch opportunities'`. */
  function ErrorMessage(error: Option<string>): (m: string)
    ensures m != ""
    ensures error.Some? && error.value != "" ==> m == error.value
    ensures error == None || error == Some("") ==> m == FetchFailed
  {
    if error.Some? && error.value != "" then error.value else FetchFailed
  }

  /** `opp.title || 'Untitled Opportunity'`. */
  function CardTitle(title: Value): (shown: Value)
    ensures JsTruthy(shown)
    ensures JsTruthy(title) ==> shown == title
    ensures !JsTruthy(title) ==> shown == Str(Untitled)
  {
    if JsTruthy(title) then title else Str(Untitled)
  }

  /** The text after the first "//", or "" when there is none. */
  function AfterSlashes(s: string): (r: string)
    ensures |r| <= |s| && r == s[|s| - |r|..]
  {
    if |s| < 2 then "" else if s[0] == '/' && s[1] == '/' then s[2..] else AfterSlashes(s[1..])
  }

  predicate IsHostEnd(c: char) {
    c == '/' || c == '?' || c == '#' || c == ':'
  }

  /** The longest prefix free of '/', '?', '#' and ':'. */
  function TakeHost(s: string): (h: string)
    ensures |h| <= |s| && h == s[..|h|]
    ensures forall i :: 0 <= i < |h| ==> !IsHostEnd(h[i])
    ensures |h| < |s| ==> IsHostEnd(s[|h|])
  {
    if s == [] || IsHostEnd(s[0]) then "" else [s[0]] + TakeHost(s[1..])
  }

  /** A simplified `new URL(source).hostname`: the authority after "//" up to its first delimiter. */
  function Hostname(source: string): (h: string)
    ensures forall i :: 0 <= i < |h| ==> !IsHostEnd(h[i])
  {
    TakeHost(AfterSlashes(source))
  }

  /** The source line of a card: the hostname of a source starting with "http", any other source as it is. */
  function SourceLabel(source: string): (shown: string)
    ensures !Text.StartsWith(source, "http") ==> shown == source
    ensures Text.StartsWith(source, "http") ==> shown == Hostname(source) && '/' !in shown
  {
    if Text.StartsWith(source, "http") then Hostname(source) else source
  }

  /** The deadline line: present exactly when `details.deadline_date` is truthy, showing that value. */
  function DeadlineLine(details: map<string, Value>): (line: Option<Value>)
    ensures line.Some? <==> JsTruthy(Get(details, "deadline_date"))
    ensures line.Some? ==> line.value == details["deadline_date"]
  {
    if "deadline_date" in details && JsTruthy(details["deadline_date"]) then Some(details["deadline_date"]) else None
  }

  /** What one result card shows. */
  datatype Card = Card(heading: Value, sourceText: string, href: string, deadline: Option<Value>)

  function CardFor(opp: Opportunity): (c: Card)
    ensures JsTruthy(c.heading) && c.href == opp.source
  {
    Card(CardTitle(opp.title), SourceLabel(opp.source), opp.source, DeadlineLine(opp.details))
  }

  lemma {:induction false} TakeHostOf(host: string, tail: string)
    requires forall i :: 0 <= i < |host| ==> !IsHostEnd(host[i])
    requires tail == [] || IsHostEnd(tail[0])
    ensures TakeHost(host + tail) == host
  {
    if host == [] {
      assert host + tail == tail;
    } else {
      TakeHostOf(host[1..], tail);
      assert (host + tail)[1..] == host[1..] + tail;
    }
  }

  lemma AfterHttpsSlashes(rest: string)
    ensures AfterSlashes("https://" + rest) == rest
  {
    var s := "https://" + rest;
    assert s[6] == '/' && s[7] == '/' && s[8..] == rest;
    assert AfterSlashes(s[6..]) == rest;
    assert AfterSlashes(s[5..]) == AfterSlashes(s[6..]) by { assert s[5..][1..] == s[6..]; }
    assert AfterSlashes(s[4..]) == AfterSlashes(s[5..]) by { assert s[4..][1..] == s[5..]; }
    assert AfterSlashes(s[3..]) == AfterSlashes(s[4..]) by { assert s[3..][1..] == s[4..]; }
    assert AfterSlashes(s[2..]) == AfterSlashes(s[3..]) by { assert s[2..][1..] == s[3..]; }
    assert AfterSlashes(s[1..]) == AfterSlashes(s[2..]) by { assert s[1..][1..] == s[2..]; }
    assert AfterSlashes(s) == AfterSlashes(s[1..]);
  }

  /**
   * An https source shows exactly its host: the text between "https://" and
   * the first '/', '?', '#' or ':' (or the end).
   */
  lemma HttpsSourceShowsHost(host: string, path: string)
    requires forall i :: 0 <= i < |host| ==> !IsHostEnd(host[i])
    requires path == [] || IsHostEnd(path[0])
    ensures SourceLabel("https://" + host + path) == host
  {
    var s := "https://" + host + path;
    assert s == "https://" + (host + path);
    AfterHttpsSlashes(host + path);
    TakeHostOf(host, path);
    assert s[..4] == "http";
  }

  /** A source with a scheme shows its host. */
  lemma HttpsExample()
    ensures SourceLabel("https://tenders.et/x") == "tenders.et"
  {
    var host, path := "tenders.et", "/x";
    assert "https://tenders.et/x" == "https://" + host + path;
    assert IsHostEnd(path[0]);
    forall i | 0 <= i < |host| ensures !IsHostEnd(host[i]) {
      assert host[i] in "tenders.et";
    }
    HttpsSourceShowsHost(host, path);
  }

  /** A source without a scheme shows unchanged. */
  lemma RawSourceExample()
    ensures SourceLabel("Ministry Portal") == "Ministry Portal"
  {
    var source := "Ministry Portal";
    assert source[0] == 'M';
    assert !Text.StartsWith(source, "http");
  }

  /** The widget's state. */
  class Panel {
    var sector: string
    var location: string
    var results: seq<Opportunity>
    var loading: bool
    var error: Option<string>
    var notification: Option<string>
    /** The request the pending handler captured when it was started, if one is pending. */
    ghost var pending: Option<ScanRequest>

    /**
     * Error and notification are never both shown; a pending scan shows
     * neither and no results; results are listed only beside a notification;
     * a request is pending exactly while loading.
     */
    ghost predicate Valid()
      reads this
    {
      && !(error.Some? && notification.Some?)
      && (loading ==> error == None && notification == None && results == [])
      && (results != [] ==> notification.Some?)
      && (loading <==> pending.Some?)
    }

    constructor ()
      ensures Valid()
      ensures sector == InitialSector && location == InitialLocation
      ensures results == [] && !loading && error == None && notification == None
      ensures pending == None
    {
      sector, location := InitialSector, InitialLocation;
      results, loading, error, notification := [], false, None, None;
      pending := None;
    }

    /** The sector selector's change handler. */
    method SelectSector(s: string)
      requires Valid()
      modifies this
      ensures Valid()
      ensures sector == s && location == old(location) && results == old(results)
      ensures loading == old(loading) && error == old(error) && notification == old(notification)
      ensures pending == old(pending)
    {
      sector := s;
    }

    /** The location field's change handler; the field stays editable during a scan. */
    method EditLocation(l: string)
      requires Valid()
      modifies this
      ensures Valid()
      ensures location == l && sector == old(sector) && results == old(results)
      ensures loading == old(loading) && error == old(error) && notification == old(notification)
      ensures pending == old(pending)
    {
      location := l;
    }

    /**
     * The synchronous part of `scanOpportunities`: it has no guard of its own and
     * does not validate the location; it sets loading, clears error,
     * notification and results, and posts the current sector and location,
     * which the pending handler keeps whatever the fields do meanwhile.
     */
    method Scan() returns (req: ScanRequest)
      requires Valid()
      modifies this
      ensures Valid()
      ensures req == ScanRequest(old(sector), old(location))
      ensures sector == old(sector) && location == old(location)
      ensures loading && error == None && notification == None && results == []
      ensures pending == Some(req)
    {
      loading := true;
      error := None;
      notification := None;
      results := [];
      req := ScanRequest(sector, location);
      pending := Some(req);
    }

    /** The button, disabled while loading: the only guard against overlapping scans. */
    method Press() returns (req: Option<ScanRequest>)
      requires Valid()
      modifies this
      ensures Valid()
      ensures req.Some? <==> !old(loading)
      ensures old(loading) ==> unchanged(this)
      ensures req.Some? ==> req.value == ScanRequest(sector, location) && sector == old(sector) && location == old(location)
      ensures req.Some? ==> loading && error == None && notification == None && results == []
      ensures req.Some? ==> pending == req
    {
      if loading {
        return None;
      }
      var r := Scan();
      req := Some(r);
    }

    /**
     * The continuation of the pending scan, which was posted as `req`: success
     * lists the returned opportunities and the notice naming the location captured
     * when the scan started; `success=false` shows the response's error or the
     * fallback; a fault shows the connection message. Loading always ends.
     */
    method Complete(req: ScanRequest, outcome: ScanOutcome)
      requires Valid() && loading && pending == Some(req)
      modifies this
      ensures Valid()
      ensures !loading && pending == None && sector == old(sector) && location == old(location)
      ensures outcome.Parsed? && outcome.data.success ==>
        && results == outcome.data.opportunities
        && notification == Some(SuccessNotice(|outcome.data.opportunities|, req.location))
        && error == None
      ensures outcome.Parsed? && !outcome.data.success ==>
        error == Some(ErrorMessage(outcome.data.error)) && notification == None && results == []
      ensures outcome.Faulted? ==> error == Some(ConnectionFailed) && notification == None && results == []
      ensures error.Some? != notification.Some?
    {
      match outcome {
        case Parsed(data) =>
          if data.success {
            results := data.opportunities;
            notification := Some(SuccessNotice(|data.opportunities|, req.location));
          } else {
            error := Some(ErrorMessage(data.error));
          }
        case Faulted =>
          error := Some(ConnectionFailed);
      }
      loading := false;
      pending := None;
    }
  }

  /** A successful scan of Nairobi lists one record and names Nairobi; a refused one shows the backend's error. */
  method ScanScenarios()
  {
    var panel := new Panel();
    panel.SelectSector("technology");
    panel.EditLocation("Nairobi");
    var req := panel.Press();
    assert req == Some(ScanRequest("technology", "Nairobi"));
    var second := panel.Press();
    assert second == None;
    panel.EditLocation("Mombasa");
    var tender := Opportunity(Str("Tender A"), "https://x.org/1", map[]);
    panel.Complete(req.value, Parsed(ScanResponse(true, [tender], None)));
    assert |panel.results| == 1 && panel.error == None;
    assert panel.notification == Some(SuccessNotice(1, "Nairobi"));

    req := panel.Press();
    assert panel.results == [];
    panel.Complete(req.value, Parsed(ScanResponse(false, [], Some("quota exceeded"))));
    assert panel.error == Some("quota exceeded") && panel.notification == None && !panel.loading;
  }
}
