/** The format-synchronisation tool (tools/sync_formats.py): the synchronisation check between
    the OWL/XML and the Turtle file, the two conversions, and the dispatch of `main` with its
    exit codes. Parsing, serialisation and graph isomorphism belong to the RDF library and are
    passed in as functions; the two files are the fields of a class. */
module SyncFormats {
  import opened Wrappers
  import opened Text

  // ---------------------------------------------------------------- graphs and the RDF library

  datatype Term = Iri(iri: string) | Literal(lexical: string) | Blank(id: string)

  datatype Triple = Triple(subject: Term, property: Term, value: Term)

  /** An RDF graph: a set of triples, whose size is `len(graph)`. */
  type Graph = set<Triple>

  /** The RDF library calls the tool makes: `parse` in each format (None where it raises),
      `serialize` in each format, and `compare.isomorphic`. */
  datatype RdfLibrary = RdfLibrary(
    parseXml: string -> Option<Graph>,
    parseTurtle: string -> Option<Graph>,
    serializeXml: Graph -> string,
    serializeTurtle: Graph -> string,
    isomorphic: (Graph, Graph) -> bool)

  /** A file on disk: missing, or present with its text. */
  datatype FileState = Missing | Present(text: string)

  /** `graph.parse(file, format=...)`: reading a missing file raises like a syntax error. */
  function ParseFile(parse: string -> Option<Graph>, f: FileState): Option<Graph> {
    match f
    case Missing => None
    case Present(text) => parse(text)
  }

  // ---------------------------------------------------------------- check_sync_status

  /** How `check_sync_status` ends; only `Synchronized` is `True`. */
  datatype SyncVerdict =
    | LoadFailed
    | DifferentSizes(owlSize: nat, ttlSize: nat)
    | NotEquivalent
    | Synchronized(triples: nat)

  /** `check_sync_status`: both files must parse, then the triple counts are compared, and only
      when they agree is isomorphism asked. */
  function CheckSyncStatus(lib: RdfLibrary, owl: FileState, ttl: FileState): (v: SyncVerdict)
    ensures v.Synchronized? <==>
              && ParseFile(lib.parseXml, owl).Some?
              && ParseFile(lib.parseTurtle, ttl).Some?
              && |ParseFile(lib.parseXml, owl).value| == |ParseFile(lib.parseTurtle, ttl).value|
              && lib.isomorphic(ParseFile(lib.parseXml, owl).value, ParseFile(lib.parseTurtle, ttl).value)
    ensures ParseFile(lib.parseXml, owl).None? || ParseFile(lib.parseTurtle, ttl).None? ==> v == LoadFailed
    ensures v.DifferentSizes? ==> v.owlSize != v.ttlSize
    ensures v.Synchronized? ==> v.triples == |ParseFile(lib.parseXml, owl).value|
  {
    match (ParseFile(lib.parseXml, owl), ParseFile(lib.parseTurtle, ttl))
    case (Some(owlGraph), Some(ttlGraph)) =>
      if |owlGraph| != |ttlGraph| then DifferentSizes(|owlGraph|, |ttlGraph|)
      else if !lib.isomorphic(owlGraph, ttlGraph) then NotEquivalent
      else Synchronized(|owlGraph|)
    case _ => LoadFailed
  }

  predicate InSync(lib: RdfLibrary, owl: FileState, ttl: FileState) {
    CheckSyncStatus(lib, owl, ttl).Synchronized?
  }

  /** The library's isomorphism test only holds between graphs of equal size. */
  ghost predicate IsomorphismKeepsSize(lib: RdfLibrary) {
    forall g, h :: lib.isomorphic(g, h) ==> |g| == |h|
  }

  /** Under that assumption the size pre-check is a shortcut only: the result is "both files
      parse and their graphs are isomorphic". */
  lemma SizeCheckRedundant(lib: RdfLibrary, owl: FileState, ttl: FileState)
    requires IsomorphismKeepsSize(lib)
    ensures InSync(lib, owl, ttl) <==>
              && ParseFile(lib.parseXml, owl).Some?
              && ParseFile(lib.parseTurtle, ttl).Some?
              && lib.isomorphic(ParseFile(lib.parseXml, owl).value, ParseFile(lib.parseTurtle, ttl).value)
  {
  }

  /** Serialising in one format and parsing back gives a graph isomorphic to the original
      (blank nodes may come back under fresh labels); isomorphism is symmetric and transitive
      and keeps the number of triples. */
  ghost predicate RoundTrips(lib: RdfLibrary) {
    && (forall g :: lib.parseXml(lib.serializeXml(g)).Some?
                    && lib.isomorphic(lib.parseXml(lib.serializeXml(g)).value, g))
    && (forall g :: lib.parseTurtle(lib.serializeTurtle(g)).Some?
                    && lib.isomorphic(lib.parseTurtle(lib.serializeTurtle(g)).value, g))
    && (forall g, h :: lib.isomorphic(g, h) ==> lib.isomorphic(h, g))
    && (forall g, h, k :: lib.isomorphic(g, h) && lib.isomorphic(h, k) ==> lib.isomorphic(g, k))
    && IsomorphismKeepsSize(lib)
  }

  /** For a library with those properties, two files written from one graph are in sync. */
  lemma ConversionSynchronizes(lib: RdfLibrary, g: Graph)
    requires RoundTrips(lib)
    ensures InSync(lib, Present(lib.serializeXml(g)), Present(lib.serializeTurtle(g)))
  {
    var owlGraph := lib.parseXml(lib.serializeXml(g)).value;
    var ttlGraph := lib.parseTurtle(lib.serializeTurtle(g)).value;
    assert lib.isomorphic(ttlGraph, g);
    assert lib.isomorphic(g, ttlGraph);
    assert lib.isomorphic(owlGraph, ttlGraph);
  }

  /** `ttl-to-owl` on two different files: the OWL file written from a parsable Turtle text is
      in sync with that text. */
  lemma TtlToOwlSynchronizes(lib: RdfLibrary, t: string)
    requires RoundTrips(lib) && lib.parseTurtle(t).Some?
    ensures InSync(lib, Present(lib.serializeXml(lib.parseTurtle(t).value)), Present(t))
  {
    var g := lib.parseTurtle(t).value;
    assert lib.isomorphic(lib.parseXml(lib.serializeXml(g)).value, g);
  }

  /** `owl-to-ttl` on two different files: the Turtle file written from a parsable OWL text is
      in sync with that text. */
  lemma OwlToTtlSynchronizes(lib: RdfLibrary, o: string)
    requires RoundTrips(lib) && lib.parseXml(o).Some?
    ensures InSync(lib, Present(o), Present(lib.serializeTurtle(lib.parseXml(o).value)))
  {
    var g := lib.parseXml(o).value;
    var ttlGraph := lib.parseTurtle(lib.serializeTurtle(g)).value;
    assert lib.isomorphic(ttlGraph, g);
    assert lib.isomorphic(g, ttlGraph);
  }

  // ---------------------------------------------------------------- the files and main

  const Actions := ["check", "ttl-to-owl", "owl-to-ttl", "sync"]

  /** The actions that read the OWL file, and those that read the TTL file. */
  predicate NeedsOwl(action: string) { action in ["check", "owl-to-ttl", "sync"] }
  predicate NeedsTtl(action: string) { action in ["check", "ttl-to-owl", "sync"] }

  /** The exit code of argparse when the action is not one of the four. */
  const UsageError := 2

  /** The OWL and the TTL file the tool works on. `--owl` and `--ttl` are free paths, so they
      may name one and the same file; then both fields show that file, and a write through
      either path changes both. */
  class OntologyFiles {
    var owl: FileState
    var ttl: FileState
    /** `--owl` and `--ttl` name the same file. */
    const sameFile: bool

    predicate Valid()
      reads this
    {
      sameFile ==> owl == ttl
    }

    constructor (owlFile: FileState, ttlFile: FileState, same: bool)
      requires same ==> owlFile == ttlFile
      ensures Valid()
      ensures owl == owlFile && ttl == ttlFile && sameFile == same
    {
      owl := owlFile;
      ttl := ttlFile;
      sameFile := same;
    }

    /** Write `text` to the OWL path. */
    method WriteOwl(text: string)
      requires Valid()
      modifies this
      ensures Valid()
      ensures owl == Present(text)
      ensures ttl == if sameFile then Present(text) else old(ttl)
    {
      owl := Present(text);
      if sameFile {
        ttl := owl;
      }
    }

    /** Write `text` to the TTL path. */
    method WriteTtl(text: string)
      requires Valid()
      modifies this
      ensures Valid()
      ensures ttl == Present(text)
      ensures owl == if sameFile then Present(text) else old(owl)
    {
      ttl := Present(text);
      if sameFile {
        owl := ttl;
      }
    }

    /** `convert_ttl_to_owl`: parse the TTL file and overwrite the OWL file with its OWL/XML
        serialisation; on a parse failure nothing is written and the result is false. */
    method ConvertTtlToOwl(lib: RdfLibrary) returns (ok: bool)
      requires Valid()
      modifies this
      ensures Valid()
      ensures ok <==> ParseFile(lib.parseTurtle, old(ttl)).Some?
      ensures ok ==> owl == Present(lib.serializeXml(ParseFile(lib.parseTurtle, old(ttl)).value))
      ensures ok ==> ttl == if sameFile then owl else old(ttl)
      ensures !ok ==> owl == old(owl) && ttl == old(ttl)
    {
      var parsed := ParseFile(lib.parseTurtle, ttl);
      if parsed.None? {
        return false;
      }
      WriteOwl(lib.serializeXml(parsed.value));
      ok := true;
    }

    /** `convert_owl_to_ttl`: the same in the other direction. */
    method ConvertOwlToTtl(lib: RdfLibrary) returns (ok: bool)
      requires Valid()
      modifies this
      ensures Valid()
      ensures ok <==> ParseFile(lib.parseXml, old(owl)).Some?
      ensures ok ==> ttl == Present(lib.serializeTurtle(ParseFile(lib.parseXml, old(owl)).value))
      ensures ok ==> owl == if sameFile then ttl else old(owl)
      ensures !ok ==> owl == old(owl) && ttl == old(ttl)
    {
      var parsed := ParseFile(lib.parseXml, owl);
      if parsed.None? {
        return false;
      }
      WriteTtl(lib.serializeTurtle(parsed.value));
      ok := true;
    }

    /** `main` once the arguments are parsed; `choice` is the line the user types when `sync`
        finds the files out of sync. The exit code is 0 exactly when the action succeeded. */
    method Run(lib: RdfLibrary, action: string, choice: string) returns (code: int)
      requires Valid()
      modifies this
      ensures Valid()
      ensures action !in Actions ==> code == UsageError && owl == old(owl) && ttl == old(ttl)
      ensures action in Actions && NeedsOwl(action) && old(owl) == Missing ==>
                code == 1 && owl == old(owl) && ttl == old(ttl)
      ensures action in Actions && !(NeedsOwl(action) && old(owl) == Missing)
              && NeedsTtl(action) && old(ttl) == Missing ==>
                code == 1 && owl == old(owl) && ttl == old(ttl)
      ensures action == "check" && old(owl).Present? && old(ttl).Present? ==>
                (code == 0 <==> InSync(lib, old(owl), old(ttl))) && owl == old(owl) && ttl == old(ttl)
      ensures action == "ttl-to-owl" && old(ttl).Present? ==>
                (code == 0 <==> ParseFile(lib.parseTurtle, old(ttl)).Some?)
                && owl == (if code == 0 then Present(lib.serializeXml(ParseFile(lib.parseTurtle, old(ttl)).value)) else old(owl))
                && ttl == (if code == 0 && sameFile then owl else old(ttl))
      ensures action == "owl-to-ttl" && old(owl).Present? ==>
                (code == 0 <==> ParseFile(lib.parseXml, old(owl)).Some?)
                && ttl == (if code == 0 then Present(lib.serializeTurtle(ParseFile(lib.parseXml, old(owl)).value)) else old(ttl))
                && owl == (if code == 0 && sameFile then ttl else old(owl))
      ensures action == "sync" && old(owl).Present? && old(ttl).Present? && InSync(lib, old(owl), old(ttl)) ==>
                code == 0 && owl == old(owl) && ttl == old(ttl)
      ensures action == "sync" && old(owl).Present? && old(ttl).Present? && !InSync(lib, old(owl), old(ttl)) ==>
                if Strip(choice) == "1" then
                  (code == 0 <==> ParseFile(lib.parseTurtle, old(ttl)).Some?)
                  && owl == (if code == 0 then Present(lib.serializeXml(ParseFile(lib.parseTurtle, old(ttl)).value)) else old(owl))
                  && ttl == (if code == 0 && sameFile then owl else old(ttl))
                else if Strip(choice) == "2" then
                  (code == 0 <==> ParseFile(lib.parseXml, old(owl)).Some?)
                  && ttl == (if code == 0 then Present(lib.serializeTurtle(ParseFile(lib.parseXml, old(owl)).value)) else old(ttl))
                  && owl == (if code == 0 && sameFile then ttl else old(owl))
                else
                  code == 1 && owl == old(owl) && ttl == old(ttl)
      ensures code in {0, 1, UsageError}
      ensures code == UsageError <==> action !in Actions
    {
      if action !in Actions {
        return UsageError;
      }
      if NeedsOwl(action) && owl == Missing {
        return 1;
      }
      if NeedsTtl(action) && ttl == Missing {
        return 1;
      }
      var success := true;
      if action == "check" {
        success := InSync(lib, owl, ttl);
      } else if action == "ttl-to-owl" {
        success := ConvertTtlToOwl(lib);
      } else if action == "owl-to-ttl" {
        success := ConvertOwlToTtl(lib);
      } else if action == "sync" {
        if !InSync(lib, owl, ttl) {
          var answer := Strip(choice);
          if answer == "1" {
            success := ConvertTtlToOwl(lib);
          } else if answer == "2" {
            success := ConvertOwlToTtl(lib);
          } else {
            success := false;
          }
        }
      }
      code := if success then 0 else 1;
    }
  }
}
