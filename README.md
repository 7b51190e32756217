# OpenVIVO attendees and events, modelled in Dafny

OpenVIVO's attendees-rdf scripts turn two tab-separated files into VIVO RDF.

`attendees2vivo.py` reads a line per conference registrant: full name, company, ORCID and opt-out flag. `make_attendee` turns the line into a record.
- It excludes a row that opted out.
- It splits the name into given, additional and family parts.
- It builds a "family, given additional" display name.
- It normalises the ORCID and rejects one that does not start with `0`.

`make_attendee_rdf` turns a record that has an ORCID into statements: a person, the person's ORCID entity, a vcard with a name entity, and a "Registrant" role in the conference.

`event2vivo/event2vivo.py` reads a line per conference. `make_event` turns it into a record keyed `tag`, `label`, `url`, `start`, `end`. `make_event_rdf` turns the record into fourteen statements: the conference, its vcard, the vcard's home-page URL entity and a date-time interval.

The project has five modules:

- `Py` (`py.dfy`): the Python 2 builtins the scripts rely on, with Python's own semantics.
  - `str.split` keeps empty tokens and always gives at least one.
  - `str.strip(chars)` strips both ends; `str.strip()` with no argument strips ASCII whitespace.
  - `str.replace` replaces non-overlapping matches, left to right.
  - `dict(zip(...))` pairs positionally, truncates to the shorter list, and lets a later key win.
- `Rdf` (`rdf.dfy`): terms, triples and `Graph`, a class whose `Add` grows a set of triples in place.
- `Attendees` (`attendees.dfy`) and `Events` (`events.dfy`): the two transformations.
  - The step-by-step code (`make_attendee`, `make_attendee_rdf`, `make_event_rdf`) is written as methods.
  - Each method is proved against a specification function (`ParseAttendee`, `AttendeeTriples`, `MissingEventKey`/`EventTriples`).
  - `make_event`, a single expression, is a function.
- `Linkage` (`linkage.dfy`): the attendee roles point at the FORCE2016 event that the event transformation emits.

Where the documentation and the code disagree, the model follows the code:
- The module docstring (`attendees2vivo.py:8`) and the docstring of `make_attendee_rdf` (`attendees2vivo.py:82`) say a person without an ORCID becomes a named vcard. The code builds nothing for them: the graph is empty.
- The stored `full_name` is not trimmed, because the result of `strip()` at `attendees2vivo.py:68` is discarded. Only the person's label is trimmed.
- A name of four or more tokens never yields a record. The code makes the family name a list at `attendees2vivo.py:65`, and concatenating that list with a string at line 67 raises TypeError. The model reports this as the outcome `FamilyNameIsList`.

## Model

| member | source | states |
|---|---|---|
| Py.Split | attendees2vivo.py:43 | `split(sep)` gives at least one token, no token holds the separator, and joining the tokens with the separator gives the string back |
| Py.SplitNoSep | attendees2vivo.py:49 | a string without the separator splits into itself alone |
| Py.SplitPrefix | attendees2vivo.py:43 | a separator-free token followed by the separator splits off as the first token |
| Py.SplitJoin | attendees2vivo.py:43 | splitting a join of separator-free tokens gives the tokens back (round trip) |
| Py.JoinAvoids | event2vivo/event2vivo.py:41 | a character that is neither the separator nor in any part is not in the joined line |
| Py.LStrip | attendees2vivo.py:70 | the result is the longest suffix whose first character is outside the strip set; everything removed is in it |
| Py.RStrip | attendees2vivo.py:70 | the result is the longest prefix whose last character is outside the strip set; everything removed is in it |
| Py.Strip | attendees2vivo.py:45 | `strip(chars)` never lengthens, leaves neither end in the set, and is the identity on a string whose ends are outside the set |
| Py.StripDropsTrailing | attendees2vivo.py:73 | one stripped character appended on the right does not change the strip |
| Py.StripKeepsConcat | attendees2vivo.py:70 | a concatenation whose outer ends survive the strip is left whole |
| Py.Replace | attendees2vivo.py:71-72 | `replace(pat, rep)` leaves a string without a match unchanged and never lengthens it when `rep` is empty; with ReplaceFirstMatch this determines the result |
| Py.ReplaceAbsent | attendees2vivo.py:71-72 | a string without the pattern's first character is left unchanged |
| Py.ReplaceLeading | attendees2vivo.py:71-72 | a leading match is replaced and the scan resumes right after it |
| Py.ReplaceSkip | attendees2vivo.py:71-72 | where no match starts at the front, the first character is kept and the scan moves on |
| Py.OccursShift | attendees2vivo.py:71-72 | a match in the tail is a match one position later in the whole string |
| Py.NoEarlyMatchTail | attendees2vivo.py:71-72 | no match starting inside `a` remains so after dropping `a`'s first character |
| Py.ReplaceFirstMatch | attendees2vivo.py:71-72 | every string with a match is rewritten as: the text before the leftmost match, kept; the replacement; then the rest replaced the same way, so matches are replaced left to right without overlap |
| Py.DistinctTail | event2vivo/event2vivo.py:41 | the first of a repetition-free key list is not among the rest, which is repetition-free too |
| Py.ZipDict | event2vivo/event2vivo.py:41 | `dict(zip(keys, values))` holds exactly the first min(len) keys; with distinct keys each maps to the value at its own position |
| Rdf.Graph.constructor | attendees2vivo.py:88 | `Graph()` is empty |
| Rdf.Graph.Add | attendees2vivo.py:94 | `g.add(t)` adds `t` and nothing else |
| Events.MakeEvent | event2vivo/event2vivo.py:35-41 | the record has the i-th key exactly when the newline-stripped line has an i-th tab field, holds that field under it, drops fields past the fifth, and always has `tag` |
| Events.EventFields | event2vivo/event2vivo.py:41 | the fields of a line: newlines stripped from both ends, then split on tabs; at least one field, none holding a tab |
| Events.EventLine | event2vivo/event2vivo.py:41 | tab- and newline-free fields, joined by tabs and ended by a newline, read back as exactly those fields |
| Events.EventLineComplete | event2vivo/event2vivo.py:41-78 | the record of a line has every key the RDF step looks up iff the line has at least five fields; otherwise the missing key is the one after the last field |
| Events.MissingEventKey | event2vivo/event2vivo.py:55-78 | no key is reported iff all five are present; a reported key is absent and every key looked up before it is present |
| Events.EventUri | event2vivo/event2vivo.py:55 | the event URI is `event_prefix` followed by the tag |
| Events.EventVcardUri | event2vivo/event2vivo.py:61 | the vcard URI is the event URI followed by `-vcard` |
| Events.EventUrlUri | event2vivo/event2vivo.py:65 | the home-page URI is the vcard URI followed by `-url` |
| Events.DtiUri | event2vivo/event2vivo.py:74 | the interval URI is the event URI followed by `-dti` |
| Events.DateUri | event2vivo/event2vivo.py:77-78 | a start or end date becomes the URI `date_prefix` followed by the raw date string, unvalidated |
| Events.EventTriples | event2vivo/event2vivo.py:56-78 | defines the fourteen statements of a complete event: the conference block, the vcard block and the interval block over the URIs minted from the tag |
| Events.AddConference | event2vivo/event2vivo.py:55-57 | adds exactly the conference's type and label |
| Events.AddVcard | event2vivo/event2vivo.py:59-70 | adds exactly the two-way event/vcard link, the vcard's type and the URL entity with rank, label and url literal |
| Events.AddInterval | event2vivo/event2vivo.py:72-78 | adds exactly the interval's type, its link from the event, and its start and end as date URIs |
| Events.MakeEventRdf | event2vivo/event2vivo.py:44-80 | a record lacking a key fails with the first key looked up that is missing; a complete record gives a new graph holding exactly the fourteen event statements |
| Events.EventUrisDistinct | event2vivo/event2vivo.py:55-74 | the event, vcard, URL and interval URIs are pairwise distinct, and distinct tags give distinct event URIs |
| Events.EventNodesApart | event2vivo/event2vivo.py:55-65 | the event and its home-page entity, the two labelled entities, differ |
| Events.EventGroupCounts | event2vivo/event2vivo.py:56-78 | the conference, vcard and interval blocks hold 2, 8 and 4 statements |
| Events.EventGroupsDisjoint | event2vivo/event2vivo.py:56-78 | the three blocks share no statement |
| Events.EventTriplesCount | event2vivo/event2vivo.py:56-78 | every complete event yields exactly fourteen distinct statements |
| Attendees.NameTokens | attendees2vivo.py:49 | one token per space-separated piece of the name, each stripped of periods at both ends |
| Attendees.SplitName | attendees2vivo.py:50-65 | a name part record exists iff there are at most three tokens; the last token is the family name, the first is the given name when there are two or more, the middle is the additional name when there are three, and missing parts are empty |
| Attendees.NormaliseOrcid | attendees2vivo.py:70-73 | a normalised ORCID never starts or ends with a slash |
| Attendees.DisplayName | attendees2vivo.py:67 | defines the stored display name: family, a comma and a space, given, a space, additional, untrimmed |
| Attendees.ValidOrcid | attendees2vivo.py:74-75 | defines the accepted ORCIDs: empty, or starting with `0` |
| Attendees.ParseFields | attendees2vivo.py:43-77 | defines `make_attendee` on the tab fields: missing `optout` when there are fewer than four, then the opt-out check, then the name table, then the ORCID check |
| Attendees.ParseAttendee | attendees2vivo.py:42-77 | defines `make_attendee` on a line: the line split on tabs, then ParseFields; the specification MakeAttendee is proved against |
| Attendees.MakeAttendee | attendees2vivo.py:42-77 | the step-by-step record building agrees with the specification `ParseAttendee`: missing opt-out field, exclusion, long name, ORCID rejection or record |
| Attendees.PersonUri | attendees2vivo.py:93 | the person URI is `attendee_prefix` followed by the ORCID |
| Attendees.OrcidUri | attendees2vivo.py:97 | the ORCID entity's URI is `http://orcid.org/` followed by the ORCID |
| Attendees.VcardUri | attendees2vivo.py:103 | the vcard URI is the person URI followed by `-vcard` |
| Attendees.NameUri | attendees2vivo.py:106 | the name URI is the vcard URI followed by `-name` |
| Attendees.RoleUri | attendees2vivo.py:118 | the role URI is the person URI, a hyphen and the event URI |
| Attendees.AttendeeTriples | attendees2vivo.py:88-124 | defines the attendee's statements: none without an ORCID, otherwise the person, vcard, name-literal and role blocks, with the person labelled by the trimmed display name |
| Attendees.AddNamePart | attendees2vivo.py:109-114 | a name literal is added exactly when the part is non-empty |
| Attendees.AddRole | attendees2vivo.py:116-122 | adds exactly the registrant role, its link from the person and its link to the event |
| Attendees.MakeAttendeeRdf | attendees2vivo.py:80-124 | a new graph holding exactly the attendee's statements: none without an ORCID |
| Attendees.AttendeeUrisDistinct | attendees2vivo.py:93-118 | person, ORCID, vcard and name URIs are pairwise distinct, the role differs from person and ORCID, and the person and ORCID URIs determine the ORCID |
| Attendees.RoleUriMeetsVcardUri | attendees2vivo.py:103-118 | the role URI equals the vcard URI iff the event URI is `vcard` |
| Attendees.AttendeeNodesApart | attendees2vivo.py:93-118 | the role is never the person |
| Attendees.GroupCounts | attendees2vivo.py:93-122 | person, vcard and role blocks hold four statements each; the name block one per non-empty part |
| Attendees.GroupsDisjoint | attendees2vivo.py:93-122 | the four blocks share no statement |
| Attendees.AttendeeTriplesCount | attendees2vivo.py:88-124 | no ORCID gives no statements; otherwise twelve plus one per non-empty name part |
| Attendees.GraphPersonLabel | attendees2vivo.py:95 | for any entities with role apart from person, the person carries the given label and no other |
| Attendees.PersonLabel | attendees2vivo.py:95 | the person's only label is the display name trimmed of whitespace |
| Attendees.GraphNameLiterals | attendees2vivo.py:109-114 | for any entities, a name literal of a kind is present iff it carries that part and the part is non-empty |
| Attendees.NameLiteralsOmitEmpty | attendees2vivo.py:109-114 | the attendee's name entity has a literal for a part iff that part is non-empty, and it carries the part |
| Attendees.GraphRoleLinksEvent | attendees2vivo.py:118-122 | for any entities, the person bears the role and the role is the only subject of a `BFO_0000054` statement, whose object is the event |
| Attendees.RoleLinksEvent | attendees2vivo.py:118-122 | the person bears the role, and every `BFO_0000054` statement links that role to the event URI unchanged |
| Attendees.CleanPartStrip | attendees2vivo.py:49 | a part without surrounding periods survives the period strip |
| Attendees.CleanTokens | attendees2vivo.py:49 | space-free parts without surrounding periods, joined with spaces, come back as the name's tokens |
| Attendees.NameRoundTrip | attendees2vivo.py:49-61 | the name table undoes formatting a name as one, two or three space-separated tokens |
| Attendees.TrailingSpacesStrip | attendees2vivo.py:95 | two trailing spaces are all the whitespace strip removes from a string with non-whitespace ends |
| Attendees.SingleNameDisplay | attendees2vivo.py:67-68 | a one-token name is stored as `family,` followed by two spaces, and labelled `family,` |
| Attendees.OrcidCharApart | attendees2vivo.py:70-73 | no identifier character is whitespace, a slash or the first character of either pattern |
| Attendees.PlainOrcidAvoids | attendees2vivo.py:71-72 | a bare identifier holds no non-identifier character |
| Attendees.BareOrcidEnds | attendees2vivo.py:70-73 | both strips leave a bare identifier alone |
| Attendees.BareOrcidReplace | attendees2vivo.py:71-72 | both replacements leave a bare identifier alone |
| Attendees.NormaliseBareOrcid | attendees2vivo.py:70-73 | a bare identifier normalises to itself |
| Attendees.OrcidPatterns | attendees2vivo.py:27 | the patterns start with `h` and `o`, end with `/`, have non-whitespace ends, and the first's first character is neither in the second nor an identifier character |
| Attendees.NormaliseAfterPrefix | attendees2vivo.py:70-71 | for any patterns, a leading prefix survives the whitespace strip and is removed by the first replacement |
| Attendees.NormaliseOrcidUrl | attendees2vivo.py:70-73 | `http://orcid.org/` followed by an identifier normalises to the identifier |
| Attendees.SlashedOrcidEnd | attendees2vivo.py:70 | an identifier with a trailing slash does not end in whitespace |
| Attendees.SlashedOrcidAvoids | attendees2vivo.py:71-72 | an identifier with a trailing slash holds no character other than identifier characters and the slash |
| Attendees.SlashedOrcidReplace | attendees2vivo.py:71-72 | both replacements leave an identifier with a trailing slash alone |
| Attendees.SlashedOrcidStrip | attendees2vivo.py:73 | the slash strip removes the trailing slash and nothing else |
| Attendees.NormaliseOrcidUrlSlash | attendees2vivo.py:70-73 | `http://orcid.org/`, an identifier and a slash normalise to the identifier |
| Attendees.NormaliseAfterHost | attendees2vivo.py:70-72 | for any patterns, a leading host that avoids the first pattern is removed by the second replacement |
| Attendees.NormaliseOrcidHost | attendees2vivo.py:70-73 | `orcid.org/` followed by an identifier normalises to the identifier |
| Attendees.NormaliseOrcidHostSlash | attendees2vivo.py:70-73 | `orcid.org/`, an identifier and a slash normalise to the identifier |
| Attendees.LineFields | attendees2vivo.py:43 | a line of tab-free fields joined with tabs is parsed field by field |
| Attendees.OptedOutLine | attendees2vivo.py:43-47 | an opt-out field other than `No` (after stripping newlines) excludes the row whatever its name and ORCID |
| Attendees.LongNameLine | attendees2vivo.py:49-67 | a row that does not opt out with four or more name tokens fails with TypeError whatever its ORCID |
| Attendees.AttendeeLine | attendees2vivo.py:43-77 | otherwise the row gives a record (or ValueError carrying it) with the company as given, the normalised ORCID and the parsed name; it is accepted iff the ORCID is empty or starts with `0`; fields past the fourth are ignored |
| Attendees.ShortAttendeeLine | attendees2vivo.py:43-45 | a line of fewer than four fields fails on the missing `optout` key |
| Linkage.Force2016Uri | attendees2vivo.py:131 | the event URI hard-coded for attendees is the one minted for the tag `FORCE2016` |
| Linkage.RolesReachConference | attendees2vivo.py:122 | an attendee with an ORCID has a `BFO_0000054` statement, and each such statement points at the entity the FORCE2016 event's statements type as a conference |

## Left out

- The two `__main__` drivers: file reading and writing, loops over lines, counters, N3 serialisation, and merging graphs with `+=`. They are I/O around the modelled functions.
- The `print` calls inside `make_attendee_rdf` and `make_event_rdf`, and the `logging` setup. They do not affect the results.
- rdflib itself. A namespace term is an opaque `Vocab` constant, and distinct constants are taken to be distinct IRIs. The 27 namespace members used all have different IRIs; `VCARD.URL` and `VCARD.url` differ in case only. The namespace IRI strings (`attendees2vivo.py:29-33`, `event2vivo/event2vivo.py:23-26`) are therefore not modelled. A minted `URIRef` is a string term kept apart from namespace terms; the minted URIs begin with `http://openvivo.org/a/` or `http://orcid.org/`, which no namespace IRI does. `Literal` is a string with an optional datatype.
- The unused constants `uri_prefix`, `date_prefix` and `vcard_prefix` of `attendees2vivo.py`, and `vcard_prefix` of `event2vivo/event2vivo.py`.
- Attendees.MakeAttendee: the ValueError carries the whole record. The model keeps the record built so far in `BadOrcid`, with the same fields.
- Attendees.MakeAttendee: for a name of four or more tokens, the model reports `FamilyNameIsList` instead of building a record whose family name is a list. That record could never be returned, because line 67 raises TypeError first.
- Events.MakeEventRdf: in the source, each block's `g.add` calls run as soon as the lookups before them succeed. The model adds a block once every lookup that block needs has succeeded. A KeyError discards the graph, so the statements added before a failing lookup can never be observed.
- Py.Replace: only non-empty patterns are modelled. The two patterns the code uses are non-empty.
- Py.Strip: `str.strip()` without an argument is modelled with Python 2's ASCII whitespace set for byte strings. Locale-dependent whitespace is not modelled.
- The graph's insertion order and rdflib's blank nodes: a graph is a set of triples, which is all the code relies on.
