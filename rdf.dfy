/** The part of rdflib the transformations touch. A term is a minted URI reference, an
    ontology term taken from a namespace (`RDF.type`, `VIVO.rank`, ...), or a literal with
    an optional datatype; a statement is a triple of terms; a `Graph` is a set of
    triples that `Add` grows one triple at a time. */
module Rdf {

  datatype Option<T> = None | Some(value: T)

  /** The namespace members the two transformations use, as opaque constants: `RdfType`
      is `RDF.type`, `VivoRank` is `VIVO.rank`, `VcardUrlClass` is `VCARD.URL` and
      `VcardUrl` is `VCARD.url`, and so on. Distinct members stand for distinct IRIs. */
  datatype Vocab =
    | RdfType | RdfsLabel | XsdInteger | XsdAnyUri
    | FoafPerson | OwlThing | BiboConference
    | VivoOrcidId | VivoResearcherRole | VivoRank | VivoDateTimeInterval | VivoStart | VivoEnd
    | OboArg2000028 | OboArg2000029 | OboRo0000053 | OboBfo0000054
    | VcardIndividual | VcardName | VcardHasName | VcardGivenName | VcardFamilyName
    | VcardAdditionalName | VcardKind | VcardHasUrl | VcardUrlClass | VcardUrl

  datatype Term =
    | URI(iri: string)
    | Voc(v: Vocab)
    | Lit(lexical: string, datatypeIri: Option<Vocab>)

  datatype Triple = Triple(subj: Term, pred: Term, obj: Term)

  /** `Literal(s)`: a literal without a datatype. */
  function Plain(s: string): Term { Lit(s, None) }

  /** An rdflib graph: a mutable set of triples. */
  class Graph {
    var triples: set<Triple>

    constructor ()
      ensures triples == {}
    {
      triples := {};
    }

    /** `g.add(t)`: adding a triple already present changes nothing. */
    method Add(t: Triple)
      modifies this
      ensures triples == old(triples) + {t}
    {
      triples := triples + {t};
    }
  }
}
