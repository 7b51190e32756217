/** attendees2vivo: one tab-separated line describing a conference registrant
    (`full_name`, `company`, `orcid`, `optout`) becomes a record, and a record with an
    ORCID becomes the statements for a person, the person's ORCID entity, a vcard with
    a name, and a "Registrant" role in the conference. */
module Attendees {
  import opened Py
  import opened Rdf

  const ATTENDEE_PREFIX := "http://openvivo.org/a/orcid"
  const ORCID_PREFIX := "http://orcid.org/"
  /** The second pattern removed from an ORCID: the prefix without its scheme. */
  const ORCID_HOST := "orcid.org/"

  /** The dictionary `make_attendee` returns; on that path every key holds a string. */
  datatype Attendee = Attendee(
    fullName: string, company: string, orcid: string, optout: string,
    givenName: string, additionalName: string, familyName: string)

  /** The outcome of `make_attendee`: `None`, a returned record, or the exception raised. */
  datatype AttendeeResult =
    | Excluded                        // the row opted out: `return None`
    | MissingOptout                   // KeyError: no `optout` field
    | FamilyNameIsList                // TypeError: a list concatenated with a string
    | BadOrcid(attendee: Attendee)    // ValueError(attendee)
    | Made(attendee: Attendee)

  /** A name split into its parts. */
  datatype Name = Name(given: string, additional: string, family: string)

  /** The name's tokens: `full_name` split on single spaces, each token stripped of
      periods at both ends. */
  function NameTokens(fullName: string): (tokens: seq<string>)
    ensures |tokens| == |Split(fullName, ' ')| >= 1
    ensures forall i :: 0 <= i < |tokens| ==> tokens[i] == Strip(Split(fullName, ' ')[i], {'.'})
  {
    var raw := Split(fullName, ' ');
    seq(|raw|, i requires 0 <= i < |raw| => Strip(raw[i], {'.'}))
  }

  /** The name table: one token is the family name; two are given and family; three are
      given, additional and family. Four or more have no string family name. */
  function SplitName(tokens: seq<string>): (n: Option<Name>)
    requires |tokens| >= 1
    ensures n.Some? <==> |tokens| <= 3
    ensures n.Some? ==> n.value.family == tokens[|tokens| - 1]
    ensures n.Some? && |tokens| >= 2 ==> n.value.given == tokens[0]
    ensures n.Some? ==> n.value.additional == if |tokens| == 3 then tokens[1] else ""
    ensures n.Some? && |tokens| == 1 ==> n.value.given == ""
  {
    if |tokens| == 1 then Some(Name("", "", tokens[0]))
    else if |tokens| == 2 then Some(Name(tokens[0], "", tokens[1]))
    else if |tokens| == 3 then Some(Name(tokens[0], tokens[1], tokens[2]))
    else None
  }

  /** The display form `family, given additional`, untrimmed. */
  function DisplayName(n: Name): string
  {
    n.family + ", " + n.given + " " + n.additional
  }

  /** An ORCID as stored: whitespace trimmed, every `http://orcid.org/` and then every
      `orcid.org/` removed, slashes stripped from both ends. */
  function NormaliseOrcid(raw: string): (orcid: string)
    ensures orcid != [] ==> orcid[0] != '/' && orcid[|orcid| - 1] != '/'
  {
    Strip(Replace(Replace(Strip(raw, Whitespace), ORCID_PREFIX, ""), ORCID_HOST, ""), {'/'})
  }

  /** What `make_attendee` accepts: no ORCID at all, or one whose first character is `0`. */
  predicate ValidOrcid(orcid: string)
  {
    orcid == [] || orcid[0] == '0'
  }

  /** `make_attendee` as a function of the line's tab-separated fields: the opt-out
      check comes first, then the name table, then the ORCID check. */
  function ParseFields(fields: seq<string>): AttendeeResult
  {
    if |fields| < 4 then MissingOptout
    else if Strip(fields[3], {'\n'}) != "No" then Excluded
    else
      match SplitName(NameTokens(fields[0]))
      case None => FamilyNameIsList
      case Some(n) =>
        var a := Attendee(DisplayName(n), fields[1], NormaliseOrcid(fields[2]), "No",
                          n.given, n.additional, n.family);
        if ValidOrcid(a.orcid) then Made(a) else BadOrcid(a)
  }

  function ParseAttendee(line: string): AttendeeResult
  {
    ParseFields(Split(line, '\t'))
  }

  /** `make_attendee`: pairs the line's fields with their keys, then overwrites the
      entries step by step. */
  method MakeAttendee(line: string) returns (r: AttendeeResult)
    ensures r == ParseAttendee(line)
  {
    var fields := Split(line, '\t');
    if |fields| < 4 {
      return MissingOptout;
    }
    var fullName, company, orcid, optout := fields[0], fields[1], fields[2], fields[3];
    optout := Strip(optout, {'\n'});
    if optout != "No" {
      return Excluded;
    }

    var nameParts := NameTokens(fullName);
    var givenName, additionalName, familyName;
    if |nameParts| == 1 {
      familyName := nameParts[0];
      givenName := "";
      additionalName := "";
    } else if |nameParts| == 2 {
      givenName := nameParts[0];
      additionalName := "";
      familyName := nameParts[1];
    } else if |nameParts| == 3 {
      givenName := nameParts[0];
      additionalName := nameParts[1];
      familyName := nameParts[2];
    } else {
      // The family name becomes the list of the remaining tokens, and building the
      // display name from it concatenates a list with a string.
      return FamilyNameIsList;
    }
    assert SplitName(nameParts) == Some(Name(givenName, additionalName, familyName));

    fullName := familyName + ", " + givenName + " " + additionalName;
    // The stripped copy of the display name is discarded, so the entry stays untrimmed.

    orcid := Strip(orcid, Whitespace);
    orcid := Replace(orcid, ORCID_PREFIX, "");
    orcid := Replace(orcid, ORCID_HOST, "");
    orcid := Strip(orcid, {'/'});

    var attendee := Attendee(fullName, company, orcid, optout, givenName, additionalName, familyName);
    if |orcid| > 0 && orcid[0] != '0' {
      return BadOrcid(attendee);
    }
    return Made(attendee);
  }

  /** The URIs minted for an attendee. */
  function PersonUri(orcid: string): string { ATTENDEE_PREFIX + orcid }
  function OrcidUri(orcid: string): string { ORCID_PREFIX + orcid }
  function VcardUri(person: string): string { person + "-vcard" }
  function NameUri(vcard: string): string { vcard + "-name" }
  function RoleUri(person: string, event: string): string { person + "-" + event }

  /** The entities an attendee's statements are about. */
  datatype Nodes = Nodes(person: Term, orcid: Term, vcard: Term, name: Term, role: Term)

  function AttendeeNodes(a: Attendee, eventUri: string): Nodes
  {
    var person := PersonUri(a.orcid);
    Nodes(URI(person), URI(OrcidUri(a.orcid)), URI(VcardUri(person)),
          URI(NameUri(VcardUri(person))), URI(RoleUri(person, eventUri)))
  }

  /** The person, typed and labelled, and the person's ORCID entity. */
  function PersonTriples(n: Nodes, personLabel: string): set<Triple>
  {
    {
      Triple(n.person, Voc(RdfType), Voc(FoafPerson)),
      Triple(n.person, Voc(RdfsLabel), Plain(personLabel)),
      Triple(n.orcid, Voc(RdfType), Voc(OwlThing)),
      Triple(n.person, Voc(VivoOrcidId), n.orcid)
    }
  }

  /** The person's vcard and the vcard's name entity. */
  function CardTriples(n: Nodes): set<Triple>
  {
    {
      Triple(n.person, Voc(OboArg2000028), n.vcard),
      Triple(n.vcard, Voc(RdfType), Voc(VcardIndividual)),
      Triple(n.name, Voc(RdfType), Voc(VcardName)),
      Triple(n.vcard, Voc(VcardHasName), n.name)
    }
  }

  /** The literal for one part of the name, present only when the part is non-empty. */
  function NamePartTriples(name: Term, part: Vocab, value: string): set<Triple>
  {
    if value != "" then {Triple(name, Voc(part), Plain(value))} else {}
  }

  /** The name entity's literals, one for each non-empty part. */
  function NameLiteralTriples(n: Nodes, a: Attendee): set<Triple>
  {
    NamePartTriples(n.name, VcardGivenName, a.givenName) +
    NamePartTriples(n.name, VcardFamilyName, a.familyName) +
    NamePartTriples(n.name, VcardAdditionalName, a.additionalName)
  }

  /** The registrant role linking the person to the event. */
  function RoleTriples(n: Nodes, event: Term): set<Triple>
  {
    {
      Triple(n.role, Voc(RdfType), Voc(VivoResearcherRole)),
      Triple(n.role, Voc(RdfsLabel), Plain("Registrant")),
      Triple(n.person, Voc(OboRo0000053), n.role),
      Triple(n.role, Voc(OboBfo0000054), event)
    }
  }

  /** All four groups for the given entities. */
  function GraphTriples(n: Nodes, personLabel: string, a: Attendee, event: Term): set<Triple>
  {
    PersonTriples(n, personLabel) + CardTriples(n) + NameLiteralTriples(n, a) + RoleTriples(n, event)
  }

  /** The statements `make_attendee_rdf` emits: none without an ORCID; otherwise the
      person is labelled with the display name trimmed of surrounding whitespace. */
  function AttendeeTriples(a: Attendee, eventUri: string): set<Triple>
  {
    if a.orcid == [] then {}
    else GraphTriples(AttendeeNodes(a, eventUri), Strip(a.fullName, Whitespace), a, URI(eventUri))
  }

  /** One `if part: g.add(...)` of `make_attendee_rdf`: the literal is added only for a
      non-empty part. */
  method AddNamePart(g: Graph, name: Term, part: Vocab, value: string)
    modifies g
    ensures g.triples == old(g.triples) + NamePartTriples(name, part, value)
  {
    if |value| > 0 {
      g.Add(Triple(name, Voc(part), Plain(value)));
    }
  }

  /** The role block of `make_attendee_rdf`: the registrant role, linked to the person
      and to the event. */
  method AddRole(g: Graph, n: Nodes, event: Term)
    modifies g
    ensures g.triples == old(g.triples) + RoleTriples(n, event)
  {
    g.Add(Triple(n.role, Voc(RdfType), Voc(VivoResearcherRole)));
    g.Add(Triple(n.role, Voc(RdfsLabel), Plain("Registrant")));
    g.Add(Triple(n.person, Voc(OboRo0000053), n.role));
    g.Add(Triple(n.role, Voc(OboBfo0000054), event));
  }

  /** `make_attendee_rdf`: fills a new graph one statement at a time. */
  method MakeAttendeeRdf(a: Attendee, eventUri: string) returns (g: Graph)
    ensures fresh(g)
    ensures g.triples == AttendeeTriples(a, eventUri)
  {
    g := new Graph();
    if |a.orcid| > 0 {
      var attendeeUri := URI(PersonUri(a.orcid));
      g.Add(Triple(attendeeUri, Voc(RdfType), Voc(FoafPerson)));
      g.Add(Triple(attendeeUri, Voc(RdfsLabel), Plain(Strip(a.fullName, Whitespace))));
      var orcidUri := URI(OrcidUri(a.orcid));
      g.Add(Triple(orcidUri, Voc(RdfType), Voc(OwlThing)));
      g.Add(Triple(attendeeUri, Voc(VivoOrcidId), orcidUri));

      // The vcard holds the attendee's name.
      var vcardUri := URI(VcardUri(attendeeUri.iri));
      g.Add(Triple(attendeeUri, Voc(OboArg2000028), vcardUri));
      g.Add(Triple(vcardUri, Voc(RdfType), Voc(VcardIndividual)));
      var nameUri := URI(NameUri(vcardUri.iri));
      g.Add(Triple(nameUri, Voc(RdfType), Voc(VcardName)));
      g.Add(Triple(vcardUri, Voc(VcardHasName), nameUri));
      var n := Nodes(attendeeUri, orcidUri, vcardUri, nameUri, URI(RoleUri(attendeeUri.iri, eventUri)));
      assert n == AttendeeNodes(a, eventUri);
      ghost var card := g.triples;
      assert card == PersonTriples(n, Strip(a.fullName, Whitespace)) + CardTriples(n);
      AddNamePart(g, nameUri, VcardGivenName, a.givenName);
      AddNamePart(g, nameUri, VcardFamilyName, a.familyName);
      AddNamePart(g, nameUri, VcardAdditionalName, a.additionalName);
      ghost var names := g.triples;
      assert names == card + NameLiteralTriples(n, a);

      // The role links the attendee to the conference.
      AddRole(g, n, URI(eventUri));
    }
  }

  /** The number of non-empty parts of the attendee's name. */
  function NamePartCount(a: Attendee): nat
  {
    (if a.givenName != "" then 1 else 0) + (if a.familyName != "" then 1 else 0) +
    (if a.additionalName != "" then 1 else 0)
  }

  /** The person, the ORCID entity, the vcard, its name entity and the role have
      different URIs, and different ORCIDs give different people. */
  lemma AttendeeUrisDistinct(orcid: string, orcid': string, eventUri: string)
    ensures var p := PersonUri(orcid);
      var o := OrcidUri(orcid);
      var v := VcardUri(p);
      var n := NameUri(v);
      p != o && p != v && p != n && o != v && o != n && v != n &&
      RoleUri(p, eventUri) != p && RoleUri(p, eventUri) != o
    ensures PersonUri(orcid) == PersonUri(orcid') ==> orcid == orcid'
    ensures OrcidUri(orcid) == OrcidUri(orcid') ==> orcid == orcid'
  {
    var p := PersonUri(orcid);
    assert p[8] == 'p';
    assert OrcidUri(orcid)[8] == 'r';
    assert VcardUri(p)[8] == 'p' && NameUri(VcardUri(p))[8] == 'p' && RoleUri(p, eventUri)[8] == 'p';
    assert |VcardUri(p)| == |p| + 6 && |NameUri(VcardUri(p))| == |p| + 11;
    assert |RoleUri(p, eventUri)| > |p|;
    if PersonUri(orcid) == PersonUri(orcid') {
      assert orcid == PersonUri(orcid)[|ATTENDEE_PREFIX|..];
    }
    if OrcidUri(orcid) == OrcidUri(orcid') {
      assert orcid == OrcidUri(orcid)[|ORCID_PREFIX|..];
    }
  }

  /** The role's URI is the person's URI, a hyphen and the event URI, so it can coincide
      with the vcard's only for the event URI `vcard`. */
  lemma RoleUriMeetsVcardUri(person: string, eventUri: string)
    ensures RoleUri(person, eventUri) == VcardUri(person) <==> eventUri == "vcard"
  {
    if RoleUri(person, eventUri) == VcardUri(person) {
      assert eventUri == RoleUri(person, eventUri)[|person| + 1..];
    }
  }

  /** The role's label cannot be mistaken for the person's: the two have different
      subjects. This is all the groups need to be told apart. */
  predicate RoleApart(n: Nodes)
  {
    n.role != n.person
  }

  lemma AttendeeNodesApart(a: Attendee, eventUri: string)
    ensures RoleApart(AttendeeNodes(a, eventUri))
  {
    AttendeeUrisDistinct(a.orcid, a.orcid, eventUri);
  }

  lemma {:induction false} GroupCounts(n: Nodes, personLabel: string, a: Attendee, event: Term)
    ensures |PersonTriples(n, personLabel)| == 4 && |CardTriples(n)| == 4 && |RoleTriples(n, event)| == 4
    ensures |NameLiteralTriples(n, a)| == NamePartCount(a)
  {
    var g := NamePartTriples(n.name, VcardGivenName, a.givenName);
    var f := NamePartTriples(n.name, VcardFamilyName, a.familyName);
    var d := NamePartTriples(n.name, VcardAdditionalName, a.additionalName);
    assert g !! f && (g + f) !! d;
  }

  /** The four groups share no statement. */
  lemma GroupsDisjoint(n: Nodes, personLabel: string, a: Attendee, event: Term)
    requires RoleApart(n)
    ensures PersonTriples(n, personLabel) !! CardTriples(n)
    ensures (PersonTriples(n, personLabel) + CardTriples(n)) !! NameLiteralTriples(n, a)
    ensures (PersonTriples(n, personLabel) + CardTriples(n) + NameLiteralTriples(n, a)) !! RoleTriples(n, event)
  {
  }

  /** Every attendee with an ORCID yields twelve statements and one more for each
      non-empty part of the name; without an ORCID, none. */
  lemma {:induction false} AttendeeTriplesCount(a: Attendee, eventUri: string)
    ensures a.orcid == [] ==> AttendeeTriples(a, eventUri) == {}
    ensures a.orcid != [] ==> |AttendeeTriples(a, eventUri)| == 12 + NamePartCount(a)
  {
    if a.orcid != [] {
      var n, l, e := AttendeeNodes(a, eventUri), Strip(a.fullName, Whitespace), URI(eventUri);
      AttendeeNodesApart(a, eventUri);
      GroupCounts(n, l, a, e);
      GroupsDisjoint(n, l, a, e);
      var p, c, m, r := PersonTriples(n, l), CardTriples(n), NameLiteralTriples(n, a), RoleTriples(n, e);
      assert |p + c| == 8;
      assert |p + c + m| == 8 + NamePartCount(a);
    }
  }

  /** The person's only label is the one given. */
  lemma GraphPersonLabel(n: Nodes, personLabel: string, a: Attendee, event: Term)
    requires RoleApart(n)
    ensures Triple(n.person, Voc(RdfsLabel), Plain(personLabel)) in GraphTriples(n, personLabel, a, event)
    ensures forall t :: (t in GraphTriples(n, personLabel, a, event) && t.subj == n.person &&
                         t.pred == Voc(RdfsLabel)) ==> t.obj == Plain(personLabel)
  {
    forall t | t in GraphTriples(n, personLabel, a, event) && t.subj == n.person && t.pred == Voc(RdfsLabel)
      ensures t.obj == Plain(personLabel)
    {
      assert t !in CardTriples(n);
      assert t !in NameLiteralTriples(n, a);
      assert t !in RoleTriples(n, event);
    }
  }

  /** The person's only label is the display name with surrounding whitespace trimmed. */
  lemma PersonLabel(a: Attendee, eventUri: string)
    requires a.orcid != []
    ensures var n := AttendeeNodes(a, eventUri);
      Triple(n.person, Voc(RdfsLabel), Plain(Strip(a.fullName, Whitespace))) in AttendeeTriples(a, eventUri) &&
      forall t :: t in AttendeeTriples(a, eventUri) && t.subj == n.person && t.pred == Voc(RdfsLabel) ==>
        t.obj == Plain(Strip(a.fullName, Whitespace))
  {
    AttendeeNodesApart(a, eventUri);
    GraphPersonLabel(AttendeeNodes(a, eventUri), Strip(a.fullName, Whitespace), a, URI(eventUri));
  }

  /** The part a name literal of kind `part` carries. */
  function PartValue(a: Attendee, part: Vocab): string
  {
    if part == VcardGivenName then a.givenName
    else if part == VcardFamilyName then a.familyName
    else a.additionalName
  }

  /** A literal for a part of the name is in the graph exactly when that part is
      non-empty, and it carries that part. */
  lemma GraphNameLiterals(n: Nodes, personLabel: string, a: Attendee, event: Term, part: Vocab, value: string)
    requires part == VcardGivenName || part == VcardFamilyName || part == VcardAdditionalName
    ensures Triple(n.name, Voc(part), Plain(value)) in GraphTriples(n, personLabel, a, event) <==>
      value == PartValue(a, part) && value != ""
  {
  }

  lemma NameLiteralsOmitEmpty(a: Attendee, eventUri: string, part: Vocab, value: string)
    requires a.orcid != []
    requires part == VcardGivenName || part == VcardFamilyName || part == VcardAdditionalName
    ensures Triple(AttendeeNodes(a, eventUri).name, Voc(part), Plain(value)) in AttendeeTriples(a, eventUri) <==>
      value == PartValue(a, part) && value != ""
  {
    GraphNameLiterals(AttendeeNodes(a, eventUri), Strip(a.fullName, Whitespace), a, URI(eventUri), part, value);
  }

  /** The person bears the role, and the role is the only subject of a
      `BFO_0000054` statement, whose object is the event. */
  lemma GraphRoleLinksEvent(n: Nodes, personLabel: string, a: Attendee, event: Term)
    ensures Triple(n.person, Voc(OboRo0000053), n.role) in GraphTriples(n, personLabel, a, event)
    ensures Triple(n.role, Voc(OboBfo0000054), event) in GraphTriples(n, personLabel, a, event)
    ensures forall t :: t in GraphTriples(n, personLabel, a, event) && t.pred == Voc(OboBfo0000054) ==>
      t.subj == n.role && t.obj == event
  {
    forall t | t in GraphTriples(n, personLabel, a, event) && t.pred == Voc(OboBfo0000054)
      ensures t.subj == n.role && t.obj == event
    {
      assert t !in PersonTriples(n, personLabel);
      assert t !in CardTriples(n);
      assert t !in NameLiteralTriples(n, a);
    }
  }

  lemma RoleLinksEvent(a: Attendee, eventUri: string)
    requires a.orcid != []
    ensures var n := AttendeeNodes(a, eventUri);
      Triple(n.person, Voc(OboRo0000053), n.role) in AttendeeTriples(a, eventUri) &&
      Triple(n.role, Voc(OboBfo0000054), URI(eventUri)) in AttendeeTriples(a, eventUri) &&
      forall t :: t in AttendeeTriples(a, eventUri) && t.pred == Voc(OboBfo0000054) ==>
        t.subj == n.role && t.obj == URI(eventUri)
  {
    GraphRoleLinksEvent(AttendeeNodes(a, eventUri), Strip(a.fullName, Whitespace), a, URI(eventUri));
  }

  /** The full name a parsed name comes from when no token needs trimming: three
      tokens when there is an additional name, two when there is a given name, and the
      family name alone otherwise. */
  function FormatName(n: Name): string
  {
    if n.additional != "" then Join([n.given, n.additional, n.family], ' ')
    else if n.given != "" then Join([n.given, n.family], ' ')
    else n.family
  }

  /** A name part the split and the period strip leave intact. */
  predicate CleanPart(t: string)
  {
    ' ' !in t && (t == [] || (t[0] != '.' && t[|t| - 1] != '.'))
  }

  lemma CleanPartStrip(t: string)
    requires CleanPart(t)
    ensures Strip(t, {'.'}) == t
  {
  }

  /** Clean parts joined with spaces come back as the name's tokens. */
  lemma {:induction false} CleanTokens(parts: seq<string>)
    requires 1 <= |parts|
    requires forall i :: 0 <= i < |parts| ==> CleanPart(parts[i])
    ensures NameTokens(Join(parts, ' ')) == parts
  {
    SplitJoin(parts, ' ');
    var tokens := NameTokens(Join(parts, ' '));
    forall i | 0 <= i < |parts|
      ensures tokens[i] == parts[i]
    {
      CleanPartStrip(parts[i]);
    }
  }

  /** The name table undoes FormatName: parsing the formatted name gives the name back. */
  lemma {:induction false} NameRoundTrip(n: Name)
    requires CleanPart(n.given) && CleanPart(n.additional) && CleanPart(n.family)
    ensures SplitName(NameTokens(FormatName(n))) == Some(n)
  {
    if n.additional != "" {
      CleanTokens([n.given, n.additional, n.family]);
    } else if n.given != "" {
      CleanTokens([n.given, n.family]);
    } else {
      CleanTokens([n.family]);
    }
  }

  /** Two trailing spaces are all the whitespace strip removes from a string with
      non-whitespace ends. */
  lemma TrailingSpacesStrip(c: string)
    requires c != [] && c[0] !in Whitespace && c[|c| - 1] !in Whitespace
    ensures Strip(c + [' '] + [' '], Whitespace) == c
  {
    assert (c + [' '])[0] == c[0];
    StripDropsTrailing(c + [' '], ' ', Whitespace);
    StripDropsTrailing(c, ' ', Whitespace);
  }

  /** A one-token name keeps the separators in the stored display name, since the
      trimmed copy is discarded; the person's label is the trimmed form. */
  lemma {:induction false} SingleNameDisplay(family: string)
    requires family != [] && family[0] !in Whitespace
    ensures DisplayName(Name("", "", family)) == family + ",  "
    ensures Strip(DisplayName(Name("", "", family)), Whitespace) == family + ","
  {
    var c := family + ",";
    assert c[0] == family[0] && c[|c| - 1] == ',';
    assert DisplayName(Name("", "", family)) == c + [' '] + [' '];
    TrailingSpacesStrip(c);
  }

  /** The characters of an ORCID identifier: digits, hyphens and the check character X. */
  predicate OrcidChar(c: char)
  {
    '0' <= c <= '9' || c == '-' || c == 'X'
  }

  predicate PlainOrcid(d: string)
  {
    forall i :: 0 <= i < |d| ==> OrcidChar(d[i])
  }

  /** No identifier character is whitespace, a slash, or the first character of
      either pattern. */
  lemma OrcidCharApart(c: char)
    requires OrcidChar(c)
    ensures c !in Whitespace && c != '/' && c != 'h' && c != 'o'
  {
  }

  lemma PlainOrcidAvoids(d: string, c: char)
    requires PlainOrcid(d) && !OrcidChar(c)
    ensures c !in d
  {
    forall i | 0 <= i < |d|
      ensures d[i] != c
    {
      assert OrcidChar(d[i]);
    }
  }

  /** The two strips leave a bare identifier alone. */
  lemma BareOrcidEnds(d: string)
    requires PlainOrcid(d)
    ensures Strip(d, Whitespace) == d && Strip(d, {'/'}) == d
    ensures d != [] ==> d[|d| - 1] !in Whitespace
  {
    if d != [] {
      OrcidCharApart(d[0]);
      OrcidCharApart(d[|d| - 1]);
    }
  }

  /** So do the two replacements. */
  lemma BareOrcidReplace(d: string)
    requires PlainOrcid(d)
    ensures Replace(d, ORCID_PREFIX, "") == d && Replace(d, ORCID_HOST, "") == d
  {
    PlainOrcidAvoids(d, 'h');
    PlainOrcidAvoids(d, 'o');
    ReplaceAbsent(d, ORCID_PREFIX, "");
    ReplaceAbsent(d, ORCID_HOST, "");
  }

  /** A bare identifier is left as it is. */
  lemma {:induction false} NormaliseBareOrcid(d: string)
    requires PlainOrcid(d)
    ensures NormaliseOrcid(d) == d
  {
    BareOrcidEnds(d);
    BareOrcidReplace(d);
  }

  /** What the normalisation needs to know about its two patterns. */
  lemma OrcidPatterns()
    ensures ORCID_PREFIX[0] == 'h' && ORCID_PREFIX[|ORCID_PREFIX| - 1] == '/'
    ensures ORCID_HOST[0] == 'o' && ORCID_HOST[|ORCID_HOST| - 1] == '/'
    ensures ORCID_PREFIX[0] !in Whitespace && ORCID_PREFIX[|ORCID_PREFIX| - 1] !in Whitespace
    ensures ORCID_HOST[0] !in Whitespace && ORCID_HOST[|ORCID_HOST| - 1] !in Whitespace
    ensures ORCID_PREFIX[0] !in ORCID_HOST && !OrcidChar(ORCID_PREFIX[0])
  {
  }

  /** The normalisation's steps, for any two patterns: a prefix that survives the
      whitespace strip is removed by the first replacement. */
  lemma {:induction false} NormaliseAfterPrefix(prefix: string, host: string, d: string)
    requires prefix != [] && host != []
    requires prefix[0] !in Whitespace && prefix[|prefix| - 1] !in Whitespace
    requires d != [] ==> d[|d| - 1] !in Whitespace
    requires Replace(d, prefix, "") == d
    ensures Replace(Strip(prefix + d, Whitespace), prefix, "") == d
  {
    StripKeepsConcat(prefix, d, Whitespace);
    ReplaceLeading(prefix, d, "");
  }

  /** The identifier behind `http://orcid.org/` is the identifier. */
  lemma {:induction false} NormaliseOrcidUrl(d: string)
    requires PlainOrcid(d)
    ensures NormaliseOrcid(ORCID_PREFIX + d) == d
  {
    BareOrcidEnds(d);
    BareOrcidReplace(d);
    OrcidPatterns();
    NormaliseAfterPrefix(ORCID_PREFIX, ORCID_HOST, d);
  }

  /** An identifier followed by a slash: the slash is all the normalisation removes. */
  lemma SlashedOrcidEnd(d: string)
    ensures var t := d + "/"; t[|t| - 1] !in Whitespace
  {
    var t := d + "/";
    assert t[|t| - 1] == '/';
  }

  /** Nor does it with a trailing slash, for characters other than the slash. */
  lemma SlashedOrcidAvoids(d: string, c: char)
    requires PlainOrcid(d) && !OrcidChar(c) && c != '/'
    ensures c !in d + "/"
  {
    PlainOrcidAvoids(d, c);
  }

  lemma SlashedOrcidReplace(d: string)
    requires PlainOrcid(d)
    ensures Replace(d + "/", ORCID_PREFIX, "") == d + "/" && Replace(d + "/", ORCID_HOST, "") == d + "/"
  {
    SlashedOrcidAvoids(d, 'h');
    SlashedOrcidAvoids(d, 'o');
    ReplaceAbsent(d + "/", ORCID_PREFIX, "");
    ReplaceAbsent(d + "/", ORCID_HOST, "");
  }

  lemma SlashedOrcidStrip(d: string)
    requires PlainOrcid(d)
    ensures Strip(d + "/", {'/'}) == d
  {
    BareOrcidEnds(d);
    StripDropsTrailing(d, '/', {'/'});
  }

  /** So is the identifier behind `http://orcid.org/` and before a trailing slash. */
  lemma {:induction false} NormaliseOrcidUrlSlash(d: string)
    requires PlainOrcid(d)
    ensures NormaliseOrcid(ORCID_PREFIX + d + "/") == d
  {
    OrcidPatterns();
    SlashedOrcidEnd(d);
    SlashedOrcidReplace(d);
    SlashedOrcidStrip(d);
    assert ORCID_PREFIX + d + "/" == ORCID_PREFIX + (d + "/");
    NormaliseAfterPrefix(ORCID_PREFIX, ORCID_HOST, d + "/");
  }

  /** The normalisation's steps, for any two patterns: a host that survives the
      whitespace strip and does not hold the first pattern's first character is
      removed by the second replacement. */
  lemma {:induction false} NormaliseAfterHost(prefix: string, host: string, d: string)
    requires prefix != [] && host != []
    requires host[0] !in Whitespace && host[|host| - 1] !in Whitespace
    requires d != [] ==> d[|d| - 1] !in Whitespace
    requires prefix[0] !in host && prefix[0] !in d
    ensures Replace(Replace(Strip(host + d, Whitespace), prefix, ""), host, "") == Replace(d, host, "")
  {
    StripKeepsConcat(host, d, Whitespace);
    assert prefix[0] !in host + d;
    ReplaceAbsent(host + d, prefix, "");
    ReplaceLeading(host, d, "");
  }

  /** And so is the identifier behind `orcid.org/`. */
  lemma {:induction false} NormaliseOrcidHost(d: string)
    requires PlainOrcid(d)
    ensures NormaliseOrcid(ORCID_HOST + d) == d
  {
    OrcidPatterns();
    BareOrcidEnds(d);
    BareOrcidReplace(d);
    PlainOrcidAvoids(d, ORCID_PREFIX[0]);
    NormaliseAfterHost(ORCID_PREFIX, ORCID_HOST, d);
  }

  /** And so is the identifier behind `orcid.org/` and before a trailing slash. */
  lemma {:induction false} NormaliseOrcidHostSlash(d: string)
    requires PlainOrcid(d)
    ensures NormaliseOrcid(ORCID_HOST + d + "/") == d
  {
    OrcidPatterns();
    SlashedOrcidEnd(d);
    SlashedOrcidReplace(d);
    SlashedOrcidStrip(d);
    SlashedOrcidAvoids(d, ORCID_PREFIX[0]);
    assert ORCID_HOST + d + "/" == ORCID_HOST + (d + "/");
    NormaliseAfterHost(ORCID_PREFIX, ORCID_HOST, d + "/");
  }

  /** Joining tab-free fields with tabs gives a line that parses as those fields. */
  lemma {:induction false} LineFields(fields: seq<string>)
    requires |fields| >= 1
    requires forall i :: 0 <= i < |fields| ==> '\t' !in fields[i]
    ensures ParseAttendee(Join(fields, '\t')) == ParseFields(fields)
  {
    SplitJoin(fields, '\t');
  }

  /** A line of tab-free fields (full name, company, ORCID, opt-out, then any number of
      fields that are dropped): an opted-out row is excluded, whatever its name and its
      ORCID. */
  lemma {:induction false} OptedOutLine(fields: seq<string>)
    requires |fields| >= 4 && forall i :: 0 <= i < |fields| ==> '\t' !in fields[i]
    requires Strip(fields[3], {'\n'}) != "No"
    ensures ParseAttendee(Join(fields, '\t')) == Excluded
  {
    LineFields(fields);
  }

  /** A row that does not opt out and whose name has four or more tokens fails, whatever
      its ORCID. */
  lemma {:induction false} LongNameLine(fields: seq<string>)
    requires |fields| >= 4 && forall i :: 0 <= i < |fields| ==> '\t' !in fields[i]
    requires Strip(fields[3], {'\n'}) == "No" && |NameTokens(fields[0])| >= 4
    ensures ParseAttendee(Join(fields, '\t')) == FamilyNameIsList
  {
    LineFields(fields);
  }

  /** Otherwise the record carries the company as given, the normalised ORCID and the
      parsed name, and it is accepted exactly when the ORCID is valid. */
  lemma {:induction false} AttendeeLine(fields: seq<string>)
    requires |fields| >= 4 && forall i :: 0 <= i < |fields| ==> '\t' !in fields[i]
    requires Strip(fields[3], {'\n'}) == "No" && |NameTokens(fields[0])| <= 3
    ensures var r := ParseAttendee(Join(fields, '\t'));
      var n := SplitName(NameTokens(fields[0])).value;
      && (r.Made? <==> ValidOrcid(NormaliseOrcid(fields[2])))
      && (r.Made? || r.BadOrcid?)
      && r.attendee == Attendee(DisplayName(n), fields[1], NormaliseOrcid(fields[2]), "No",
                                n.given, n.additional, n.family)
  {
    LineFields(fields);
    var n := SplitName(NameTokens(fields[0])).value;
    var a := Attendee(DisplayName(n), fields[1], NormaliseOrcid(fields[2]), "No", n.given, n.additional, n.family);
    assert ParseFields(fields) == if ValidOrcid(a.orcid) then Made(a) else BadOrcid(a);
  }

  /** A line with fewer than four fields has no `optout` to look up. */
  lemma {:induction false} ShortAttendeeLine(fields: seq<string>)
    requires 1 <= |fields| < 4
    requires forall i :: 0 <= i < |fields| ==> '\t' !in fields[i]
    ensures ParseAttendee(Join(fields, '\t')) == MissingOptout
  {
    LineFields(fields);
  }
}
