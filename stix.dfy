/** The values the STIX import engine works on: the parsed document graph, the requests it
    sends to the knowledge base's persistence handlers and the replies it gets back, and the
    in-memory ledgers of one import run. */
module Stix {
  import opened Common

  /** A document-scoped node id (STIX `id_` / `idref`). */
  type Id = string

  newtype byte = x: int | 0 <= x < 256

  type Bytes = seq<byte>

  /** An opaque handle to an entity persisted by a handler; `key` is its database id. */
  datatype ObjRef = ObjRef(key: string)

  /** The entity kinds the ledger records (the CRITs type names). */
  datatype Kind =
    | Event | Indicator | Actor | Domain | IP | Sample | Certificate | PCAP | RawData | Email | Campaign

  /** One ledger value: the `(kind, object)` pair stored under a document id. */
  datatype Entry = Entry(kind: Kind, obj: ObjRef)

  /** A failure message: a handler's text, or the text of a caught Python exception, which
      this model does not spell out. */
  datatype Message = Text(text: string) | ExceptionText

  /** One failure record `(message, typeName, id)`. */
  datatype Failure = Failure(message: Message, typeName: string, id: Id)

  /** A deferred edge `(leftId, relType, rightId, confidence)`, resolved after the walk. */
  datatype Relationship = Relationship(left: Id, relType: string, right: Id, confidence: string)

  /** An edge the stitcher asks the knowledge base to create. */
  datatype Edge = Edge(from: ObjRef, to: ObjRef, relType: string, confidence: string)

  /** A relation hint from the incident: the relation type and confidence to the Event. */
  datatype EventRel = EventRel(relType: string, confidence: string)

  /** A comment already stored on an entity: its text and its edit date. */
  datatype StoredComment = StoredComment(text: string, editDate: string)

  // ---------------------------------------------------------------------------------------
  // The document graph, as the external STIX/CybOX parser delivers it.

  datatype ArtifactType = NetworkTraffic | FileData | OtherArtifactType(name: string)

  /** A related object of a File: an Artifact (with its type and bytes) or anything else. */
  datatype Related = RelatedArtifact(artifactType: ArtifactType, data: Bytes) | RelatedOther(typeName: string)

  datatype CustomProperty = CustomProperty(name: string, value: string)

  datatype EmailHeader = EmailHeader(
    messageId: string, subject: string, sender: string, replyTo: string,
    xOriginatingIp: string, xMailer: string, boundary: string, from: string, date: string,
    to: seq<string>, cc: seq<string>)

  /** The object properties of an observable, one constructor per CybOX class the engine tells
      apart; `Other` is every other class, named by `typeName`. */
  datatype Props =
    | Address(category: string, values: seq<string>)
    | DomainName(values: seq<string>)
    | Artifact(artifactType: ArtifactType, data: Bytes)
    | File(fileName: string, md5: string, customProperties: seq<CustomProperty>,
           related: seq<Related>, extractedFeatures: Option<seq<string>>)
    | EmailMessage(rawBody: string, rawHeader: string, emailServer: string,
                   header: Option<EmailHeader>, attachments: seq<Id>)
    | Other(typeName: string, values: seq<string>)

  /** A CybOX object: its own id (`item.parent.id_`) and its properties, if any. */
  datatype CyboxObject = CyboxObject(id: Id, properties: Option<Props>)

  /** A CybOX observable: either a single object or a composition of observables. */
  datatype Observable = Observable(id: Id, obj: Option<CyboxObject>, composition: Option<seq<Observable>>)

  /** A related indicator of an indicator (used by the comment pass). */
  datatype RelatedItem = RelatedItem(
    title: string, description: string, shortDescription: string, timestamp: string,
    contributors: seq<string>)

  /** A STIX indicator; an absent title is the empty string. */
  datatype StixIndicator = StixIndicator(
    id: Id, title: string, observables: seq<Observable>, relatedIndicators: seq<RelatedItem>)

  /** An entry of the threat-actor list: a STIX ThreatActor, or anything else (skipped). */
  datatype ActorNode =
    | ThreatActor(id: Id, title: string, description: string, sophistications: seq<string>,
                  motivations: seq<string>, types: seq<string>, intendedEffects: seq<string>)
    | NotThreatActor

  datatype StixCampaign = StixCampaign(title: string, description: string)

  /** One related indicator of the first incident: `idref`, relationship and confidence. */
  datatype EventHint = EventHint(idref: Id, relType: string, confidence: string)

  /** The identity of an information source; its name may be absent. */
  datatype Identity = Identity(name: Option<string>)

  /** The STIX header; absent title/description are empty strings, `identity` is the identity
      of the header's information source when it has both. */
  datatype Header = Header(
    title: string, description: string, packageIntents: seq<string>, identity: Option<Identity>)

  datatype Package = Package(
    id: Id, header: Option<Header>, indicators: seq<StixIndicator>, observables: seq<Observable>,
    threatActors: seq<ActorNode>, campaigns: seq<StixCampaign>, incidentHints: seq<EventHint>)

  // ---------------------------------------------------------------------------------------
  // The external collaborators.

  /** What `make_crits_object` returns: an indicator type and the values to import. */
  datatype CritsObject = CritsObject(objectType: string, values: seq<string>)

  /** The email field set passed to `handle_email_fields`. */
  datatype EmailField = FieldText(text: string) | FieldList(items: seq<string>)

  /** A call into a persistence handler whose reply the engine interprets. */
  datatype Request =
    | AddNewEvent(title: string, description: string, eventType: string, source: string,
                  acquisitionMethod: string, reference: string, date: string, analyst: string)
    | IpAddUpdate(ip: string, ipType: string)
    | UpsertDomain(domain: string)
    | HandleRawData(text: string, title: string, source: string, acquisitionMethod: string, reference: string)
    | HandleCertFile(fileName: string, data: Option<Bytes>)
    | HandlePcapFile(fileName: string, data: Option<Bytes>)
    | HandleFile(fileName: string, data: Option<Bytes>, md5: string)
    | HandleEmailFields(fields: map<string, EmailField>)
    | HandleIndicator(value: string, indType: string)
    | AddNewActor(name: string, description: string)
    | AddCampaign(title: string, description: string)

  /** A handler's result dictionary: each key may be absent. `success` and `status` are the
      truth values of those keys. */
  datatype HandlerResult = HandlerResult(
    success: Option<bool>, status: Option<bool>, reason: Option<string>, message: Option<string>,
    obj: Option<ObjRef>, id: Option<ObjRef>)

  /** A handler call either returns its result or raises. */
  datatype Reply = Returned(res: HandlerResult) | Raised

  /** The world outside the engine, as functions of their arguments. */
  datatype Oracle = Oracle(
    sourceExists: string -> bool,            // does_source_exist
    ipType: string -> string,                // get_crits_ip_type ("" when unmapped)
    eventType: string -> Option<string>,     // get_crits_event_type (None when it raises)
    actorTag: string -> string,              // get_crits_actor_tags ("" when unmapped)
    makeObject: Props -> Option<CritsObject>,// make_crits_object (None when it raises)
    decodeUtf8: Bytes -> Option<string>,     // bytes.decode('utf-8') (None when it raises)
    handle: Request -> Reply,                // every persistence handler above
    callRaises: Effect -> bool,              // the ignored-result calls below, when they raise
    commentsRaise: Entry -> bool)            // get_comments, when it raises

  /** Calls into the knowledge base whose results the engine ignores (update_actor_tags,
      modify_sample_filenames, comment_add); each may raise. */
  datatype Effect =
    | SampleFilenames(sample: ObjRef, filenames: seq<string>)
    | ActorTags(actor: ObjRef, tagType: string, tags: seq<string>)
    | CommentAdded(target: Entry, text: string, urlKey: string, timestamp: string, analyst: Option<string>)

  /** The run-scoped values every pass reads: package id, chosen source, acquisition method,
      reference and analyst. */
  datatype Env = Env(packageId: Id, sourceName: string, acquisitionMethod: string, reference: string, analyst: string)

  /** The state the walk passes change: the import ledger, the failure ledger, the deferred
      relationships, the ignored-result calls made so far and the comments stored per entity. */
  datatype State = State(
    imported: map<Id, Entry>, failed: seq<Failure>, relationships: seq<Relationship>,
    effects: seq<Effect>, comments: map<Entry, seq<StoredComment>>)
}
