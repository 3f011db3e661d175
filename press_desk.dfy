/**
 * The AI press desk: a query box whose accepted submission asks a
 * generative-answer service for a web-grounded reply, then shows the reply
 * text and the distinct citation links found in the reply's grounding
 * metadata. The service call itself is an abstract outcome.
 */
module PressDesk {
  import opened Wrappers
  import Text

  const NoComment := "The Press Bureau has no official comment on this specific dispatch at this time."
  const WireDown := "The editorial wire is currently down. Please resubmit your inquiry shortly."
  const UntitledResource := "Verified Editorial Resource"

  /** The `web` entry of a grounding chunk; either field may be missing. */
  datatype Web = Web(title: Option<string>, uri: Option<string>)

  /** One grounding chunk of the first candidate's metadata. */
  datatype Chunk = Chunk(web: Option<Web>)

  /** A citation as displayed under the reply. */
  datatype Link = Link(title: string, uri: string)

  /**
   * How the awaited generate-content call ends: a reply with its text and the
   * grounding chunks when the optional path to them exists, or a thrown fault.
   */
  datatype Outcome = Replied(text: string, chunks: Option<seq<Chunk>>) | Faulted

  /** The reply shown on success: the returned text, or the no-comment placeholder when it is empty. */
  function ReplyText(text: string): (r: string)
    ensures r != ""
    ensures text != "" ==> r == text
    ensures text == "" ==> r == NoComment
  {
    if text != "" then text else NoComment
  }

  /** The citation built from a chunk's web entry: a missing or empty title becomes the placeholder, a missing uri "". */
  function ToLink(w: Web): (l: Link)
    ensures l.title != ""
    ensures w.title == Some(l.title) || (l.title == UntitledResource && (w.title == None || w.title == Some("")))
    ensures l.uri == w.uri.GetOr("")
  {
    Link(if w.title.Some? && w.title.value != "" then w.title.value else UntitledResource,
         if w.uri.Some? && w.uri.value != "" then w.uri.value else "")
  }

  /** The chunks that carry a web entry, each turned into a citation, in chunk order. */
  function Citations(chunks: seq<Chunk>): (links: seq<Link>)
    ensures |links| <= |chunks|
    ensures forall k :: 0 <= k < |links| ==> links[k].title != ""
  {
    if chunks == [] then []
    else (if chunks[0].web.Some? then [ToLink(chunks[0].web.value)] else []) + Citations(chunks[1..])
  }

  /** Extraction works chunk by chunk: citations of a concatenation are the concatenated citations. */
  lemma {:induction false} CitationsAppend(a: seq<Chunk>, b: seq<Chunk>)
    ensures Citations(a + b) == Citations(a) + Citations(b)
  {
    if a == [] {
      assert a + b == b;
    } else {
      CitationsAppend(a[1..], b);
      assert (a + b)[1..] == a[1..] + b;
    }
  }

  /** Every chunk with a web entry contributes its citation. */
  lemma {:induction false} CitationsComplete(chunks: seq<Chunk>, i: nat)
    requires i < |chunks| && chunks[i].web.Some?
    ensures ToLink(chunks[i].web.value) in Citations(chunks)
  {
    if i > 0 {
      CitationsComplete(chunks[1..], i - 1);
    }
  }

  /** Every citation comes from a chunk with a web entry. */
  lemma {:induction false} CitationsSound(chunks: seq<Chunk>, l: Link)
    requires l in Citations(chunks)
    ensures exists i :: 0 <= i < |chunks| && chunks[i].web.Some? && ToLink(chunks[i].web.value) == l
  {
    if !(chunks[0].web.Some? && ToLink(chunks[0].web.value) == l) {
      CitationsSound(chunks[1..], l);
      var i :| 0 <= i < |chunks[1..]| && chunks[1..][i].web.Some? && ToLink(chunks[1..][i].web.value) == l;
      assert chunks[i + 1] == chunks[1..][i];
    }
  }

  /** There are no citations exactly when no chunk has a web entry. */
  lemma {:induction false} CitationsEmptyIff(chunks: seq<Chunk>)
    ensures Citations(chunks) == [] <==> forall i :: 0 <= i < |chunks| ==> chunks[i].web.None?
  {
    if chunks != [] {
      CitationsEmptyIff(chunks[1..]);
      if forall i :: 0 <= i < |chunks[1..]| ==> chunks[1..][i].web.None? {
        if chunks[0].web.None? {
          forall i | 0 <= i < |chunks| ensures chunks[i].web.None? {
            if i > 0 { assert chunks[i] == chunks[1..][i - 1]; }
          }
        }
      } else {
        var i :| 0 <= i < |chunks[1..]| && !chunks[1..][i].web.None?;
        assert chunks[i + 1] == chunks[1..][i];
      }
    }
  }

  predicate HasUri(m: seq<Link>, u: string) {
    exists k :: 0 <= k < |m| && m[k].uri == u
  }

  /** No two entries share a uri: the key uniqueness of a JavaScript Map. */
  predicate UniqueUris(m: seq<Link>) {
    forall i, j :: 0 <= i < j < |m| ==> m[i].uri != m[j].uri
  }

  /**
   * `map.set(l.uri, l)` on a Map whose values, in insertion order, are `m`:
   * an existing key keeps its position and takes the new value, a new key goes last.
   */
  function Put(m: seq<Link>, l: Link): (r: seq<Link>)
    requires UniqueUris(m)
    ensures UniqueUris(r)
    ensures forall u :: HasUri(r, u) <==> HasUri(m, u) || u == l.uri
    ensures HasUri(m, l.uri) ==> |r| == |m| && forall k :: 0 <= k < |m| ==> r[k] == (if m[k].uri == l.uri then l else m[k])
    ensures !HasUri(m, l.uri) ==> r == m + [l]
  {
    if m == [] then
      assert [l][0] == l;
      [l]
    else
      assert forall u :: HasUri(m, u) <==> m[0].uri == u || HasUri(m[1..], u) by {
        forall u ensures HasUri(m, u) <==> m[0].uri == u || HasUri(m[1..], u) {
          HasUriCons(m[0], m[1..], u);
          assert m == [m[0]] + m[1..];
        }
      }
      if m[0].uri == l.uri then
        var r := [l] + m[1..];
        assert forall u :: HasUri(r, u) <==> l.uri == u || HasUri(m[1..], u) by {
          forall u ensures HasUri(r, u) <==> l.uri == u || HasUri(m[1..], u) {
            HasUriCons(l, m[1..], u);
          }
        }
        r
      else
        var rest := Put(m[1..], l);
        var r := [m[0]] + rest;
        assert forall u :: HasUri(r, u) <==> m[0].uri == u || HasUri(rest, u) by {
          forall u ensures HasUri(r, u) <==> m[0].uri == u || HasUri(rest, u) {
            HasUriCons(m[0], rest, u);
          }
        }
        r
  }

  lemma HasUriCons(x: Link, rest: seq<Link>, u: string)
    ensures HasUri([x] + rest, u) <==> x.uri == u || HasUri(rest, u)
  {
    var m := [x] + rest;
    if HasUri(m, u) && x.uri != u {
      var k :| 0 <= k < |m| && m[k].uri == u;
      assert rest[k - 1] == m[k];
    }
    if HasUri(rest, u) {
      var k :| 0 <= k < |rest| && rest[k].uri == u;
      assert m[k + 1] == rest[k];
    }
    assert m[0] == x;
  }

  /** `Array.from(new Map(links.map(l => [l.uri, l])).values())`. */
  function UniqueByUri(links: seq<Link>): (r: seq<Link>)
    ensures UniqueUris(r)
  {
    if links == [] then [] else Put(UniqueByUri(links[..|links| - 1]), links[|links| - 1])
  }

  lemma HasUriSnoc(init: seq<Link>, l: Link, u: string)
    ensures HasUri(init + [l], u) <==> HasUri(init, u) || u == l.uri
  {
    if HasUri(init, u) {
      var k :| 0 <= k < |init| && init[k].uri == u;
      assert (init + [l])[k] == init[k];
    }
    assert (init + [l])[|init|] == l;
  }

  /** The deduplicated citations hold exactly the uris of the input. */
  lemma {:induction false} UniqueByUriKeys(links: seq<Link>)
    ensures forall u :: HasUri(UniqueByUri(links), u) <==> HasUri(links, u)
  {
    if links != [] {
      var init, l := links[..|links| - 1], links[|links| - 1];
      UniqueByUriKeys(init);
      assert links == init + [l];
      forall u ensures HasUri(links, u) <==> HasUri(init, u) || u == l.uri {
        HasUriSnoc(init, l, u);
      }
    }
  }

  /** Index `i` holds the last citation with its uri. */
  predicate IsLastOccurrence(links: seq<Link>, i: int) {
    0 <= i < |links| && forall j :: i < j < |links| ==> links[j].uri != links[i].uri
  }

  /** Every entry of `r` is the last citation of `links` with its uri. */
  predicate TakesLastOccurrences(links: seq<Link>, r: seq<Link>) {
    forall k :: 0 <= k < |r| ==> exists i :: 0 <= i < |links| && IsLastOccurrence(links, i) && links[i] == r[k]
  }

  lemma LastOccurrencesPut(init: seq<Link>, l: Link, m: seq<Link>)
    requires UniqueUris(m) && TakesLastOccurrences(init, m)
    ensures TakesLastOccurrences(init + [l], Put(m, l))
  {
    var links, r, n := init + [l], Put(m, l), |init| + 1;
    forall k | 0 <= k < |r| ensures exists i :: 0 <= i < |links| && IsLastOccurrence(links, i) && links[i] == r[k] {
      if r[k] == l {
        assert IsLastOccurrence(links, n - 1) && links[n - 1] == r[k];
      } else {
        assert k < |m| && r[k] == m[k] && m[k].uri != l.uri;
        var i :| 0 <= i < |init| && IsLastOccurrence(init, i) && init[i] == m[k];
        assert links[i] == init[i];
        forall j | i < j < |links| ensures links[j].uri != links[i].uri {
          if j < |init| {
            assert links[j] == init[j];
          } else {
            assert links[j] == l;
          }
        }
        assert IsLastOccurrence(links, i) && links[i] == r[k];
      }
    }
  }

  /** Each kept citation is the last input citation with that uri: the last title wins. */
  lemma {:induction false} UniqueByUriLastWins(links: seq<Link>)
    ensures TakesLastOccurrences(links, UniqueByUri(links))
  {
    if links != [] {
      var init, l := links[..|links| - 1], links[|links| - 1];
      UniqueByUriLastWins(init);
      LastOccurrencesPut(init, l, UniqueByUri(init));
      assert links == init + [l];
    }
  }

  /** The index of the first citation with uri `u`, or the length when there is none. */
  function FirstIndex(links: seq<Link>, u: string): (i: nat)
    ensures i <= |links|
    ensures i < |links| <==> HasUri(links, u)
    ensures i < |links| ==> links[i].uri == u
    ensures forall j :: 0 <= j < i ==> links[j].uri != u
  {
    if links == [] then 0
    else if links[0].uri == u then 0
    else
      var i := 1 + FirstIndex(links[1..], u);
      assert forall j :: 1 <= j < |links| ==> links[j] == links[1..][j - 1];
      i
  }

  lemma FirstIndexSnoc(init: seq<Link>, l: Link, u: string)
    ensures HasUri(init, u) ==> FirstIndex(init + [l], u) == FirstIndex(init, u)
    ensures !HasUri(init, u) && u == l.uri ==> FirstIndex(init + [l], u) == |init|
  {
    var links := init + [l];
    HasUriSnoc(init, l, u);
    var i, f := FirstIndex(init, u), FirstIndex(links, u);
    if HasUri(init, u) {
      assert links[i] == init[i];
    }
  }

  /** The entries of `r` appear in the order of their uris' first appearance in `links`. */
  predicate OrderedByFirstAppearance(links: seq<Link>, r: seq<Link>) {
    forall p, q :: 0 <= p < q < |r| ==> FirstIndex(links, r[p].uri) < FirstIndex(links, r[q].uri) < |links|
  }

  lemma FirstAppearancePut(init: seq<Link>, l: Link, m: seq<Link>)
    requires UniqueUris(m) && OrderedByFirstAppearance(init, m)
    requires forall u :: HasUri(m, u) <==> HasUri(init, u)
    ensures OrderedByFirstAppearance(init + [l], Put(m, l))
  {
    var links, r := init + [l], Put(m, l);
    forall p, q | 0 <= p < q < |r| ensures FirstIndex(links, r[p].uri) < FirstIndex(links, r[q].uri) < |links| {
      assert r[p].uri == m[p].uri;
      assert HasUri(m, m[p].uri);
      FirstIndexSnoc(init, l, m[p].uri);
      if q < |m| {
        assert r[q].uri == m[q].uri;
        assert HasUri(m, m[q].uri);
        FirstIndexSnoc(init, l, m[q].uri);
      } else {
        assert r[q] == l && !HasUri(init, l.uri);
        FirstIndexSnoc(init, l, l.uri);
      }
    }
  }

  /** Kept citations are ordered by the first appearance of their uri in the input. */
  lemma {:induction false} UniqueByUriFirstOrder(links: seq<Link>)
    ensures OrderedByFirstAppearance(links, UniqueByUri(links))
  {
    if links != [] {
      var init, l := links[..|links| - 1], links[|links| - 1];
      UniqueByUriFirstOrder(init);
      UniqueByUriKeys(init);
      FirstAppearancePut(init, l, UniqueByUri(init));
      assert links == init + [l];
    }
  }

  /** Two chunks citing one uri, titled X and then Y, give the single citation titled Y. */
  lemma LaterTitleWinsExample()
    ensures UniqueByUri([Link("X", "a"), Link("Y", "a")]) == [Link("Y", "a")]
  {
    assert [Link("X", "a"), Link("Y", "a")][..1] == [Link("X", "a")];
    assert [Link("X", "a")][0].uri == "a";
  }

  /** The citations a reply produces: none when the metadata path is absent. */
  function ReplyLinks(chunks: Option<seq<Chunk>>): (links: seq<Link>)
    ensures UniqueUris(links)
    ensures chunks == None ==> links == []
  {
    if chunks.Some? then UniqueByUri(Citations(chunks.value)) else []
  }

  /** The press desk's state: the query field, the reply, the loading flag and the citations. */
  class InquiryPanel {
    var query: string
    var reply: Option<string>
    var loading: bool
    var links: seq<Link>

    /** A pending inquiry has no reply and no citations; citations only accompany a reply. */
    ghost predicate Valid()
      reads this
    {
      && (loading ==> reply == None && links == [])
      && (links != [] ==> reply.Some?)
      && UniqueUris(links)
    }

    constructor ()
      ensures Valid()
      ensures query == "" && reply == None && !loading && links == []
    {
      query, reply, loading, links := "", None, false, [];
    }

    /** Typing into the query field, which stays editable while a request is pending. */
    method Edit(text: string)
      requires Valid()
      modifies this
      ensures Valid()
      ensures query == text && reply == old(reply) && loading == old(loading) && links == old(links)
    {
      query := text;
    }

    /**
     * The guard and the synchronous part of `handleAiInquiry`: a blank query or
     * a pending request changes nothing and sends nothing; otherwise the query
     * is sent, the reply and citations are cleared and loading is set.
     */
    method Submit() returns (sent: Option<string>)
      requires Valid()
      modifies this
      ensures Valid()
      ensures sent.Some? <==> !Text.IsBlank(old(query)) && !old(loading)
      ensures query == old(query)
      ensures sent == None ==> reply == old(reply) && loading == old(loading) && links == old(links)
      ensures sent.Some? ==> sent.value == query && loading && reply == None && links == []
    {
      if Text.IsBlank(query) || loading {
        return None;
      }
      loading := true;
      reply := None;
      links := [];
      sent := Some(query);
    }

    /**
     * The continuation after the awaited call: a reply stores its text (or the
     * no-comment placeholder) and its distinct citations; a fault stores the
     * wire-down message; either way loading ends.
     */
    method Complete(outcome: Outcome)
      requires Valid() && loading
      modifies this
      ensures Valid()
      ensures !loading && query == old(query)
      ensures outcome.Replied? ==> reply == Some(ReplyText(outcome.text)) && links == ReplyLinks(outcome.chunks)
      ensures outcome.Faulted? ==> reply == Some(WireDown) && links == []
    {
      match outcome {
        case Replied(text, chunks) =>
          reply := Some(ReplyText(text));
          if chunks.Some? {
            links := UniqueByUri(Citations(chunks.value));
          }
        case Faulted =>
          reply := Some(WireDown);
      }
      loading := false;
    }
  }

  /** A blank query is refused, a real one goes out, and a fault ends in the wire-down message with no citations. */
  method InquiryScenario()
  {
    var panel := new InquiryPanel();
    panel.Edit(" \t ");
    var sent := panel.Submit();
    assert Text.IsBlank(" \t ") by { Text.BlankIffAllSpace(" \t "); }
    assert sent == None && !panel.loading;
    panel.Edit("Who founded Ndoto?");
    assert !Text.IsBlank("Who founded Ndoto?") by { Text.BlankIffAllSpace("Who founded Ndoto?"); assert !Text.IsJsSpace('W'); }
    sent := panel.Submit();
    assert sent == Some("Who founded Ndoto?") && panel.loading;
    var again := panel.Submit();
    assert again == None;
    panel.Complete(Faulted);
    assert panel.reply == Some(WireDown) && panel.links == [] && !panel.loading;
  }
}
