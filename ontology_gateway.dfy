/** The ontology of software-engineering skills, seen as an immutable lookup.
    A class is known by its name; for each known class the ontology lists its
    directly asserted super-classes and sub-classes, in the order the ontology
    store enumerates them. Loading the ontology file and resolving names
    against the ontology namespace happen outside this model. */
module OntologyGateway {

  /** An ontology class as the store hands it back: what the matcher reads of it
      is its local name, which may be written in any case. */
  datatype OntClass = OntClass(localName: string)

  /** What the ontology asserts about one class. */
  datatype ClassInfo = ClassInfo(superClasses: seq<OntClass>, subClasses: seq<OntClass>)

  /** The loaded ontology: the classes it knows, by name. */
  type Ontology = map<string, ClassInfo>

  /** The asserted super-classes of the class called `className`; a class the
      ontology does not know has none (an empty list, not an error). */
  function SuperClasses(o: Ontology, className: string): (r: seq<OntClass>)
    ensures className !in o ==> r == []
    ensures className in o ==> r == o[className].superClasses
  {
    if className in o then o[className].superClasses else []
  }

  /** The asserted sub-classes of the class called `className`; a class the
      ontology does not know has none (an empty list, not an error). */
  function SubClasses(o: Ontology, className: string): (r: seq<OntClass>)
    ensures className !in o ==> r == []
    ensures className in o ==> r == o[className].subClasses
  {
    if className in o then o[className].subClasses else []
  }

  /** A class the ontology does not know has an empty neighbourhood on both sides. */
  lemma UnknownClassHasNoNeighbours(o: Ontology, className: string)
    requires className !in o
    ensures SuperClasses(o, className) == [] && SubClasses(o, className) == []
  {
  }
}
