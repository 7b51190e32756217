/** How the two transformations meet: the attendees' roles point at the event URI the
    attendee driver hard-codes for FORCE2016, and that is the URI the event
    transformation mints from the tag `FORCE2016`. */
module Linkage {
  import opened Rdf
  import opened Attendees
  import opened Events

  /** The event every attendee role is linked to. */
  const FORCE2016_EVENT_URI := "http://openvivo.org/a/eventFORCE2016"

  /** The hard-coded URI is the one minted for the tag `FORCE2016`. */
  lemma Force2016Uri()
    ensures EventUri("FORCE2016") == FORCE2016_EVENT_URI
  {
  }

  /** Every `BFO_0000054` statement of an attendee with an ORCID points at the entity the
      FORCE2016 event's statements type as a conference, and there is one such statement. */
  lemma RolesReachConference(a: Attendee, eventLabel: string, url: string, start: string, end: string)
    requires a.orcid != []
    ensures exists t :: t in AttendeeTriples(a, FORCE2016_EVENT_URI) && t.pred == Voc(OboBfo0000054)
    ensures forall t :: t in AttendeeTriples(a, FORCE2016_EVENT_URI) && t.pred == Voc(OboBfo0000054) ==>
      Triple(t.obj, Voc(RdfType), Voc(BiboConference)) in EventTriples("FORCE2016", eventLabel, url, start, end)
  {
    Force2016Uri();
    RoleLinksEvent(a, FORCE2016_EVENT_URI);
    var n := AttendeeNodes(a, FORCE2016_EVENT_URI);
    assert Triple(n.role, Voc(OboBfo0000054), URI(FORCE2016_EVENT_URI)) in AttendeeTriples(a, FORCE2016_EVENT_URI);
    assert Triple(URI(FORCE2016_EVENT_URI), Voc(RdfType), Voc(BiboConference))
      in ConferenceTriples(NodesOf(EventUri("FORCE2016")), eventLabel);
  }
}
