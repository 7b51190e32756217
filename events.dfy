/** event2vivo: one tab-separated line describing a conference becomes a record (a
    dictionary keyed by `tag`, `label`, `url`, `start`, `end`) and the record becomes
    fourteen statements: the conference, its vcard, the vcard's home-page URL entity
    and the conference's date-time interval. */
module Events {
  import opened Py
  import opened Rdf

  const DATE_PREFIX := "http://openvivo.org/a/date"
  const EVENT_PREFIX := "http://openvivo.org/a/event"

  /** The record's keys (`'tag'`, `'label'`, `'url'`, `'start'`, `'end'`). */
  datatype EventKey = Tag | Label | Url | Start | End

  /** The keys in the order the line's fields are paired with them. */
  const EVENT_KEYS: seq<EventKey> := [Tag, Label, Url, Start, End]

  /** The fields of a line: newlines stripped from both ends, then split on tabs. */
  function EventFields(line: string): (fields: seq<string>)
    ensures |fields| >= 1
    ensures forall i :: 0 <= i < |fields| ==> '\t' !in fields[i]
  {
    Split(Strip(line, {'\n'}), '\t')
  }

  /** `make_event`: pairs the line's fields with EVENT_KEYS positionally; fields beyond
      the fifth are dropped, a short line gives a record without its last keys, and the
      tag is always there. */
  function MakeEvent(line: string): (event: map<EventKey, string>)
    ensures forall i :: 0 <= i < 5 ==> (EVENT_KEYS[i] in event <==> i < |EventFields(line)|)
    ensures forall i :: 0 <= i < 5 && i < |EventFields(line)| ==> event[EVENT_KEYS[i]] == EventFields(line)[i]
    ensures Tag in event
  {
    var fields := EventFields(line);
    var m := ZipDict(EVENT_KEYS, fields);
    assert Distinct(EVENT_KEYS);
    forall i | 0 <= i < 5 && EVENT_KEYS[i] in m
      ensures i < |fields|
    {
      assert EVENT_KEYS[i] in EVENT_KEYS[..Min(5, |fields|)];
    }
    m
  }

  /** The URIs minted from an event's tag, and a date's URI. */
  function EventUri(tag: string): string { EVENT_PREFIX + tag }
  function EventVcardUri(event: string): string { event + "-vcard" }
  function EventUrlUri(vcard: string): string { vcard + "-url" }
  function DtiUri(event: string): string { event + "-dti" }
  function DateUri(date: string): string { DATE_PREFIX + date }

  /** The entities an event's statements are about. */
  datatype EventNodes = EventNodes(event: Term, vcard: Term, url: Term, dti: Term)

  /** The entities derived from the event's URI. */
  function NodesOf(event: string): EventNodes
  {
    EventNodes(URI(event), URI(EventVcardUri(event)), URI(EventUrlUri(EventVcardUri(event))), URI(DtiUri(event)))
  }

  /** The conference itself: its type and its label. */
  function ConferenceTriples(n: EventNodes, eventLabel: string): set<Triple>
  {
    {
      Triple(n.event, Voc(RdfType), Voc(BiboConference)),
      Triple(n.event, Voc(RdfsLabel), Plain(eventLabel))
    }
  }

  /** The conference's vcard, linked both ways, and the vcard's home-page URL entity. */
  function VcardTriples(n: EventNodes, url: string): set<Triple>
  {
    {
      Triple(n.event, Voc(OboArg2000028), n.vcard),
      Triple(n.vcard, Voc(OboArg2000029), n.event),
      Triple(n.vcard, Voc(RdfType), Voc(VcardKind)),
      Triple(n.vcard, Voc(VcardHasUrl), n.url),
      Triple(n.url, Voc(RdfType), Voc(VcardUrlClass)),
      Triple(n.url, Voc(VivoRank), Lit("1", Some(XsdInteger))),
      Triple(n.url, Voc(RdfsLabel), Plain("Conference Home Page")),
      Triple(n.url, Voc(VcardUrl), Lit(url, Some(XsdAnyUri)))
    }
  }

  /** The conference's date-time interval, whose ends are date entities. */
  function IntervalTriples(n: EventNodes, start: Term, end: Term): set<Triple>
  {
    {
      Triple(n.dti, Voc(RdfType), Voc(VivoDateTimeInterval)),
      Triple(n.event, Voc(VivoDateTimeInterval), n.dti),
      Triple(n.dti, Voc(VivoStart), start),
      Triple(n.dti, Voc(VivoEnd), end)
    }
  }

  /** The statements `make_event_rdf` emits for an event with all five fields. */
  function EventTriples(tag: string, eventLabel: string, url: string, start: string, end: string): set<Triple>
  {
    var n := NodesOf(EventUri(tag));
    ConferenceTriples(n, eventLabel) + VcardTriples(n, url) + IntervalTriples(n, URI(DateUri(start)), URI(DateUri(end)))
  }

  /** What `make_event_rdf` gives back: the filled graph, or the key whose lookup
      raised KeyError. */
  datatype EventRdf = Built(graph: Graph) | MissingKey(key: EventKey)

  /** The first key, in the order `make_event_rdf` looks them up (tag, label, url,
      start, end), that the record lacks. */
  function MissingEventKey(event: map<EventKey, string>): (k: Option<EventKey>)
    ensures k == None <==> Tag in event && Label in event && Url in event && Start in event && End in event
    ensures k.Some? ==> k.value !in event
    ensures k.Some? ==> forall j :: 0 <= j < 5 && EVENT_KEYS[j] == k.value ==>
      forall i :: 0 <= i < j ==> EVENT_KEYS[i] in event
  {
    if Tag !in event then Some(Tag)
    else if Label !in event then Some(Label)
    else if Url !in event then Some(Url)
    else if Start !in event then Some(Start)
    else if End !in event then Some(End)
    else None
  }

  /** The conference block of `make_event_rdf`. */
  method AddConference(g: Graph, eventUri: string, eventLabel: string)
    modifies g
    ensures g.triples == old(g.triples) + ConferenceTriples(NodesOf(eventUri), eventLabel)
  {
    g.Add(Triple(URI(eventUri), Voc(RdfType), Voc(BiboConference)));
    g.Add(Triple(URI(eventUri), Voc(RdfsLabel), Plain(eventLabel)));
  }

  /** The vcard block of `make_event_rdf`: the vcard holds the event's home page. */
  method AddVcard(g: Graph, eventUri: string, url: string)
    modifies g
    ensures g.triples == old(g.triples) + VcardTriples(NodesOf(eventUri), url)
  {
    var event := URI(eventUri);
    var vcardUri := URI(EventVcardUri(eventUri));
    g.Add(Triple(event, Voc(OboArg2000028), vcardUri));
    g.Add(Triple(vcardUri, Voc(OboArg2000029), event));
    g.Add(Triple(vcardUri, Voc(RdfType), Voc(VcardKind)));
    var urlUri := URI(EventUrlUri(vcardUri.iri));
    g.Add(Triple(vcardUri, Voc(VcardHasUrl), urlUri));
    g.Add(Triple(urlUri, Voc(RdfType), Voc(VcardUrlClass)));
    g.Add(Triple(urlUri, Voc(VivoRank), Lit("1", Some(XsdInteger))));
    g.Add(Triple(urlUri, Voc(RdfsLabel), Plain("Conference Home Page")));
    g.Add(Triple(urlUri, Voc(VcardUrl), Lit(url, Some(XsdAnyUri))));
  }

  /** The date-time interval block of `make_event_rdf`. */
  method AddInterval(g: Graph, eventUri: string, start: string, end: string)
    modifies g
    ensures g.triples == old(g.triples) + IntervalTriples(NodesOf(eventUri), URI(DateUri(start)), URI(DateUri(end)))
  {
    var dtiUri := URI(DtiUri(eventUri));
    g.Add(Triple(dtiUri, Voc(RdfType), Voc(VivoDateTimeInterval)));
    g.Add(Triple(URI(eventUri), Voc(VivoDateTimeInterval), dtiUri));
    g.Add(Triple(dtiUri, Voc(VivoStart), URI(DateUri(start))));
    g.Add(Triple(dtiUri, Voc(VivoEnd), URI(DateUri(end))));
  }

  /** `make_event_rdf`: looks the fields up in the order the statements need them, so
      the first missing key is the one reported (KeyError); with all five present the
      graph holds exactly EventTriples. Each block's statements are added once the
      lookups it needs have succeeded; a KeyError discards the graph, so the statements
      a block added before its failing lookup are never seen. */
  method MakeEventRdf(event: map<EventKey, string>) returns (r: EventRdf)
    ensures MissingEventKey(event).Some? ==> r == MissingKey(MissingEventKey(event).value)
    ensures MissingEventKey(event) == None ==>
      && r.Built?
      && fresh(r.graph)
      && r.graph.triples == EventTriples(event[Tag], event[Label], event[Url], event[Start], event[End])
  {
    var g := new Graph();
    if Tag !in event { return MissingKey(Tag); }
    var eventUri := EventUri(event[Tag]);
    if Label !in event { return MissingKey(Label); }
    AddConference(g, eventUri, event[Label]);
    if Url !in event { return MissingKey(Url); }
    AddVcard(g, eventUri, event[Url]);
    if Start !in event { return MissingKey(Start); }
    if End !in event { return MissingKey(End); }
    AddInterval(g, eventUri, event[Start], event[End]);
    r := Built(g);
  }

  /** The four minted URIs are pairwise distinct, and different tags give different
      events. */
  lemma EventUrisDistinct(tag: string, tag': string)
    ensures var e := EventUri(tag);
      var v := EventVcardUri(e);
      var u := EventUrlUri(v);
      var d := DtiUri(e);
      e != v && e != u && e != d && v != u && v != d && u != d
    ensures EventUri(tag) == EventUri(tag') ==> tag == tag'
  {
    var e := EventUri(tag);
    assert |EventVcardUri(e)| == |e| + 6;
    assert |EventUrlUri(EventVcardUri(e))| == |e| + 10;
    assert |DtiUri(e)| == |e| + 4;
    if EventUri(tag) == EventUri(tag') {
      assert tag == EventUri(tag)[|EVENT_PREFIX|..];
    }
  }

  /** The only two labels, the event's and its home page's, are on different entities. */
  predicate LabelsApart(n: EventNodes)
  {
    n.event != n.url
  }

  lemma EventNodesApart(tag: string)
    ensures LabelsApart(NodesOf(EventUri(tag)))
  {
    EventUrisDistinct(tag, tag);
  }

  lemma {:induction false} EventGroupCounts(n: EventNodes, eventLabel: string, url: string, start: Term, end: Term)
    ensures |ConferenceTriples(n, eventLabel)| == 2
    ensures |VcardTriples(n, url)| == 8
    ensures |IntervalTriples(n, start, end)| == 4
  {
  }

  /** The three groups share no statement. */
  lemma EventGroupsDisjoint(n: EventNodes, eventLabel: string, url: string, start: Term, end: Term)
    requires LabelsApart(n)
    ensures ConferenceTriples(n, eventLabel) !! VcardTriples(n, url)
    ensures (ConferenceTriples(n, eventLabel) + VcardTriples(n, url)) !! IntervalTriples(n, start, end)
  {
  }

  /** Every well-formed event yields exactly fourteen distinct statements. */
  lemma {:induction false} EventTriplesCount(tag: string, eventLabel: string, url: string, start: string, end: string)
    ensures |EventTriples(tag, eventLabel, url, start, end)| == 14
  {
    var n, s, e := NodesOf(EventUri(tag)), URI(DateUri(start)), URI(DateUri(end));
    EventNodesApart(tag);
    EventGroupCounts(n, eventLabel, url, s, e);
    EventGroupsDisjoint(n, eventLabel, url, s, e);
    assert |ConferenceTriples(n, eventLabel) + VcardTriples(n, url)| == 10;
  }

  /** A line written as its tab-free, newline-free fields joined with tabs and ended by a
      newline reads back as those fields. */
  lemma {:induction false} EventLine(fields: seq<string>)
    requires |fields| >= 1
    requires forall i :: 0 <= i < |fields| ==> '\t' !in fields[i] && '\n' !in fields[i]
    ensures EventFields(Join(fields, '\t') + "\n") == fields
  {
    var j := Join(fields, '\t');
    JoinAvoids(fields, '\t', '\n');
    assert j == [] || j[0] !in {'\n'} by {
      if j != [] { assert j[0] in j; }
    }
    StripDropsTrailing(j, '\n', {'\n'});
    assert j == [] || j[|j| - 1] !in {'\n'} by {
      if j != [] { assert j[|j| - 1] in j; }
    }
    SplitJoin(fields, '\t');
  }

  /** `make_event_rdf` succeeds on `make_event`'s record exactly when the line has at least
      five fields; otherwise the key after the last field is the one missing. */
  lemma EventLineComplete(line: string)
    ensures var fields := EventFields(line);
      && (MissingEventKey(MakeEvent(line)) == None <==> |fields| >= 5)
      && (|fields| < 5 ==> MissingEventKey(MakeEvent(line)) == Some(EVENT_KEYS[|fields|]))
  {
    var m, k := MakeEvent(line), |EventFields(line)|;
    assert EVENT_KEYS[1] == Label && EVENT_KEYS[2] == Url && EVENT_KEYS[3] == Start && EVENT_KEYS[4] == End;
    assert (Label in m <==> k > 1) && (Url in m <==> k > 2) && (Start in m <==> k > 3) && (End in m <==> k > 4);
  }
}
