/** The import passes of one run as pure state transformers. Each function here is the
    specification a method of `Parser.STIXParser` is proved against. Python exceptions caught
    by a per-node `try` are a `raised` flag; uncaught ones end the run (`...Crashed`). Every
    loop of the source is a fold from the left written by recursion on the LAST element, so
    that a loop over `xs[..i]` extends to `xs[..i+1]` by one step. */
module Passes {
  import opened Common
  import opened Stix
  import opened Lookups

  const NoPropertiesMessage := "No valid object_properties was found!"
  const UnknownFailureMessage := "Failed for unknown reason."
  const NoSourceMessage := "No source to attribute data to."
  const ObservableTypeName := "Observable"
  const EventTypeName := "STIX Event"
  const ThreatActorTypeName := "ThreatActor"
  const TopLevelMarker := "Top-Level Object"
  const CampaignMarker := "MARTI Campaign"
  const CommentTitle := "CRITs Comment(s)"
  const RelatedTo := "Related To"
  const UnknownConfidence := "Unknown"
  const IntelSharing := "Intel Sharing"
  const IpCategories: seq<string> :=
    ["cidr", "ipv4-addr", "ipv4-net", "ipv4-netmask", "ipv6-addr", "ipv6-net", "ipv6-netmask", "ipv6-subnet"]

  /** A state reached inside a `try` block, and whether an exception escaped from it. */
  datatype Progress = Progress(st: State, raised: bool)

  function AppendFailure(st: State, f: Failure): State
  {
    st.(failed := st.failed + [f])
  }

  /** The ignored-result calls `es`, made one after another: a call that raises is not
      recorded, and the exception skips the calls after it. */
  function Performed(effects: seq<Effect>, es: seq<Effect>, o: Oracle): (seq<Effect>, bool)
    decreases |es|
  {
    if es == [] then (effects, false)
    else
      var p := Performed(effects, es[..|es| - 1], o);
      if p.1 then p
      else if o.callRaises(es[|es| - 1]) then (p.0, true)
      else (p.0 + [es[|es| - 1]], false)
  }

  // ---------------------------------------------------------------------------------------
  // parse_res

  /** `success` decides; only when the key is absent does `status` decide. */
  predicate Succeeded(res: HandlerResult)
  {
    if res.success.Some? then res.success.value else res.status == Some(true)
  }

  /** `reason`, else `message`, else the fixed text. */
  function FailureText(res: HandlerResult): string
  {
    if res.reason.Some? then res.reason.value
    else if res.message.Some? then res.message.value
    else UnknownFailureMessage
  }

  /** `parse_res(kind, obs, res)`: record the object under `oid`, or append one failure. Reading
      `res['object']` of a success without an object raises. */
  function ParseResSpec(st: State, kind: Kind, oid: Id, res: HandlerResult): Progress
  {
    if Succeeded(res) then
      if res.obj.Some? then Progress(st.(imported := st.imported[oid := Entry(kind, res.obj.value)]), false)
      else Progress(st, true)
    else Progress(AppendFailure(st, Failure(Text(FailureText(res)), ObservableTypeName, oid)), false)
  }

  /** A handler call followed by `parse_res`; a handler that raises changes nothing. */
  function ReplySpec(st: State, kind: Kind, oid: Id, reply: Reply): Progress
  {
    match reply
    case Raised => Progress(st, true)
    case Returned(res) => ParseResSpec(st, kind, oid, res)
  }

  // ---------------------------------------------------------------------------------------
  // The `for value in ...` loops of parse_observables.

  /** How one value becomes a handler request, if it does at all. */
  datatype ValueRule = IpRule(ipType: string) | DomainRule | IndicatorRule(indType: string)

  function RequestFor(rule: ValueRule, v: string): Option<Request>
  {
    match rule
    case IpRule(t) => if t != "" then Some(IpAddUpdate(Strip(ByteSpace, v), t)) else None
    case DomainRule => Some(UpsertDomain(v))
    case IndicatorRule(t) => if v != "" && t != "" then Some(HandleIndicator(Strip(UnicodeSpace, v), t)) else None
  }

  function ValueStep(p: Progress, kind: Kind, oid: Id, rule: ValueRule, v: string, o: Oracle): Progress
  {
    if p.raised then p
    else match RequestFor(rule, v)
      case None => p
      case Some(req) => ReplySpec(p.st, kind, oid, o.handle(req))
  }

  function ValuesSpec(st: State, kind: Kind, oid: Id, rule: ValueRule, values: seq<string>, o: Oracle): Progress
    decreases |values|
  {
    if values == [] then Progress(st, false)
    else ValueStep(ValuesSpec(st, kind, oid, rule, values[..|values| - 1], o), kind, oid, rule, values[|values| - 1], o)
  }

  // ---------------------------------------------------------------------------------------
  // One component of one observable (the body of the inner loop of parse_observables).

  /** The IP step: taken for an Address in a recognised category, before the elif chain. */
  function IpStage(st: State, oid: Id, item: Props, o: Oracle): Progress
  {
    if item.Address? && item.category in IpCategories then
      ValuesSpec(st, IP, oid, IpRule(o.ipType(item.category)), item.values, o)
    else Progress(st, false)
  }

  function ArtifactTitle(packageId: Id): string
  {
    "Artifact for Event: STIX Document " + packageId
  }

  /** Sample: after `parse_res`, present extracted features need `res['object']`, and then
      `modify_sample_filenames` is called, which may raise. */
  function SampleSpec(st: State, oid: Id, item: Props, o: Oracle): Progress
    requires item.File?
  {
    var reply := o.handle(HandleFile(item.fileName, LastArtifactData(item.related, OfType(FileData)), item.md5));
    var p := ReplySpec(st, Sample, oid, reply);
    if p.raised || item.extractedFeatures.None? then p
    else match reply
      case Raised => p
      case Returned(res) =>
        if res.obj.None? then Progress(p.st, true)
        else
          var calls := Performed(p.st.effects, [SampleFilenames(res.obj.value, item.extractedFeatures.value)], o);
          Progress(p.st.(effects := calls.0), calls.1)
  }

  /** One deferred "Contains" edge per attachment, in order. */
  function ContainsEdges(oid: Id, attachments: seq<Id>): (r: seq<Relationship>)
    ensures |r| == |attachments|
    ensures forall k :: 0 <= k < |attachments| ==> r[k] == Relationship(oid, "Contains", attachments[k], "High")
    decreases |attachments|
  {
    if attachments == [] then []
    else ContainsEdges(oid, attachments[..|attachments| - 1]) +
         [Relationship(oid, "Contains", attachments[|attachments| - 1], "High")]
  }

  /** Email: attachments are deferred only when the reply's `status` is true. */
  function EmailSpec(st: State, oid: Id, item: Props, env: Env, o: Oracle): Progress
    requires item.EmailMessage?
  {
    var reply := o.handle(HandleEmailFields(EmailFields(item, env)));
    var p := ReplySpec(st, Email, oid, reply);
    if !p.raised && reply.Returned? && reply.res.status == Some(true) then
      Progress(p.st.(relationships := p.st.relationships + ContainsEdges(oid, item.attachments)), false)
    else p
  }

  /** The isinstance/elif chain after the IP step. */
  function ChainSpec(st: State, oid: Id, item: Props, env: Env, o: Oracle): Progress
  {
    match Classify(item)
    case DomainBranch => ValuesSpec(st, Domain, oid, DomainRule, item.values, o)
    case RawDataBranch =>
      (match o.decodeUtf8(item.data)
       case None => Progress(st, true)
       case Some(text) =>
         ReplySpec(st, RawData, oid, o.handle(HandleRawData(text, ArtifactTitle(env.packageId), env.sourceName,
                                                            env.acquisitionMethod, env.reference))))
    case CertificateBranch =>
      ReplySpec(st, Certificate, oid, o.handle(HandleCertFile(item.fileName, LastArtifactData(item.related, AnyArtifact))))
    case PcapBranch =>
      ReplySpec(st, PCAP, oid, o.handle(HandlePcapFile(item.fileName, LastArtifactData(item.related, OfType(NetworkTraffic)))))
    case SampleBranch => SampleSpec(st, oid, item, o)
    case EmailBranch => EmailSpec(st, oid, item, env, o)
    case IndicatorBranch =>
      match o.makeObject(item)
      case None => Progress(st, true)
      case Some(co) =>
        if co.objectType == "Address" then Progress(st, false)
        else ValuesSpec(st, Indicator, oid, IndicatorRule(co.objectType), co.values, o)
  }

  function BodySpec(st: State, oid: Id, item: Props, env: Env, o: Oracle): Progress
  {
    var p := IpStage(st, oid, item, o);
    if p.raised then p else ChainSpec(p.st, oid, item, env, o)
  }

  /** One component `comp` of the observable whose id is `oid`: a missing object or properties
      is a failure; an exception in the body appends one failure named after the properties. */
  function ComponentSpec(st: State, oid: Id, comp: Observable, env: Env, o: Oracle): State
  {
    match comp.obj
    case None => AppendFailure(st, Failure(Text(NoPropertiesMessage), ObservableTypeName, comp.id))
    case Some(cy) =>
      match cy.properties
      case None => AppendFailure(st, Failure(Text(NoPropertiesMessage), ObservableTypeName, comp.id))
      case Some(item) =>
        var p := BodySpec(st, oid, item, env, o);
        if p.raised then AppendFailure(p.st, Failure(ExceptionText, TypeName(item), cy.id)) else p.st
  }

  /** A composition's component list, or the observable itself. */
  function Components(obs: Observable): seq<Observable>
  {
    if obs.composition.Some? then obs.composition.value else [obs]
  }

  function ComponentsSpec(st: State, oid: Id, comps: seq<Observable>, env: Env, o: Oracle): State
    decreases |comps|
  {
    if comps == [] then st
    else ComponentSpec(ComponentsSpec(st, oid, comps[..|comps| - 1], env, o), oid, comps[|comps| - 1], env, o)
  }

  /** `parse_observables`: every component is recorded under its OUTER observable's id. */
  function ObservablesSpec(st: State, list: seq<Observable>, env: Env, o: Oracle): State
    decreases |list|
  {
    if list == [] then st
    else
      var obs := list[|list| - 1];
      ComponentsSpec(ObservablesSpec(st, list[..|list| - 1], env, o), obs.id, Components(obs), env, o)
  }

  // ---------------------------------------------------------------------------------------
  // parse_indicators

  /** How the indicator walk ends: it ran to the end, it met a "MARTI Campaign" indicator
      (the source returns False), or an uncaught exception ended the run. */
  datatype WalkOutcome = Walked | CampaignMarkerSeen | WalkCrashed

  datatype Walk = Walk(st: State, outcome: WalkOutcome)

  predicate IsWrapper(ind: StixIndicator)
  {
    Contains(ind.title, TopLevelMarker)
  }

  predicate IsCampaignMarker(ind: StixIndicator)
  {
    !IsWrapper(ind) && Contains(ind.title, CampaignMarker)
  }

  /** `result = imported.pop(from, None); if result: imported[to] = result`. */
  function Rekey(imported: map<Id, Entry>, from: Id, to: Id): (r: map<Id, Entry>)
    ensures from in imported ==> to in r && r[to] == imported[from] && (from != to ==> from !in r)
    ensures from !in imported ==> r == imported
    ensures forall k :: k != from && k != to ==> (k in r <==> k in imported) && (k in r ==> r[k] == imported[k])
  {
    if from in imported then (imported - {from})[to := imported[from]] else imported
  }

  /** `handle_indicator_ind`'s reply in parse_indicators: `res['success']`, `res['object']` and
      `res['message']` are read directly, so a missing key raises. */
  function IndicatorReplySpec(st: State, indId: Id, reply: Reply, typeName: string, objId: Id): Progress
  {
    match reply
    case Raised => Progress(st, true)
    case Returned(res) =>
      match res.success
      case None => Progress(st, true)
      case Some(ok) =>
        if ok then
          if res.obj.Some? then Progress(st.(imported := st.imported[indId := Entry(Indicator, res.obj.value)]), false)
          else Progress(st, true)
        else if res.message.Some? then Progress(AppendFailure(st, Failure(Text(res.message.value), typeName, objId)), false)
        else Progress(st, true)
  }

  function IndicatorValueStep(p: Progress, indId: Id, t: string, v: string, typeName: string, objId: Id, o: Oracle): Progress
  {
    if p.raised then p
    else match RequestFor(IndicatorRule(t), v)
      case None => p
      case Some(req) => IndicatorReplySpec(p.st, indId, o.handle(req), typeName, objId)
  }

  function IndicatorValuesSpec(st: State, indId: Id, t: string, values: seq<string>, typeName: string, objId: Id, o: Oracle): Progress
    decreases |values|
  {
    if values == [] then Progress(st, false)
    else IndicatorValueStep(IndicatorValuesSpec(st, indId, t, values[..|values| - 1], typeName, objId, o),
                            indId, t, values[|values| - 1], typeName, objId, o)
  }

  /** The `try` block for one observable of an ordinary indicator. */
  function IndicatorItemSpec(st: State, indId: Id, item: Props, objId: Id, o: Oracle): State
  {
    match o.makeObject(item)
    case None => AppendFailure(st, Failure(ExceptionText, TypeName(item), objId))
    case Some(co) =>
      var p := IndicatorValuesSpec(st, indId, co.objectType, co.values, TypeName(item), objId, o);
      if p.raised then AppendFailure(p.st, Failure(ExceptionText, TypeName(item), objId)) else p.st
  }

  /** One observable of an ordinary indicator. Without object properties the source reads the
      undefined name `obs`: the run ends. */
  function IndicatorObservableStep(w: Walk, indId: Id, obs: Observable, o: Oracle): Walk
  {
    if w.outcome != Walked then w
    else if obs.obj.None? || obs.obj.value.properties.None? then Walk(w.st, WalkCrashed)
    else Walk(IndicatorItemSpec(w.st, indId, obs.obj.value.properties.value, obs.obj.value.id, o), Walked)
  }

  function IndicatorObservablesSpec(st: State, indId: Id, list: seq<Observable>, o: Oracle): Walk
    decreases |list|
  {
    if list == [] then Walk(st, Walked)
    else IndicatorObservableStep(IndicatorObservablesSpec(st, indId, list[..|list| - 1], o), indId, list[|list| - 1], o)
  }

  /** A "Top-Level Object" indicator: parse its observables, then move the first one's ledger
      entry to the indicator's own id. An empty observable list raises IndexError. */
  function WrapperSpec(st: State, ind: StixIndicator, env: Env, o: Oracle): Walk
  {
    var st1 := ObservablesSpec(st, ind.observables, env, o);
    if ind.observables == [] then Walk(st1, WalkCrashed)
    else Walk(st1.(imported := Rekey(st1.imported, ind.observables[0].id, ind.id)), Walked)
  }

  function IndicatorSpec(st: State, ind: StixIndicator, env: Env, o: Oracle): Walk
  {
    if IsWrapper(ind) then WrapperSpec(st, ind, env, o)
    else if IsCampaignMarker(ind) then Walk(st, CampaignMarkerSeen)
    else IndicatorObservablesSpec(st, ind.id, ind.observables, o)
  }

  function IndicatorStep(w: Walk, ind: StixIndicator, env: Env, o: Oracle): Walk
  {
    if w.outcome != Walked then w else IndicatorSpec(w.st, ind, env, o)
  }

  /** `parse_indicators`: the walk stops at the first campaign marker or crash. */
  function IndicatorsSpec(st: State, inds: seq<StixIndicator>, env: Env, o: Oracle): Walk
    decreases |inds|
  {
    if inds == [] then Walk(st, Walked)
    else IndicatorStep(IndicatorsSpec(st, inds[..|inds| - 1], env, o), inds[|inds| - 1], env, o)
  }

  // ---------------------------------------------------------------------------------------
  // parse_campaigns (no try: a raising handler ends the run, reported as `raised`)

  function CampaignStep(p: Progress, key: Id, c: StixCampaign, o: Oracle): Progress
  {
    if p.raised then p
    else match o.handle(AddCampaign(c.title, c.description))
      case Raised => Progress(p.st, true)
      case Returned(res) =>
        if res.id.Some? then Progress(p.st.(imported := p.st.imported[key := Entry(Campaign, res.id.value)]), false)
        else p
  }

  function CampaignsSpec(st: State, key: Id, campaigns: seq<StixCampaign>, o: Oracle): Progress
    decreases |campaigns|
  {
    if campaigns == [] then Progress(st, false)
    else CampaignStep(CampaignsSpec(st, key, campaigns[..|campaigns| - 1], o), key, campaigns[|campaigns| - 1], o)
  }

  // ---------------------------------------------------------------------------------------
  // parse_threat_actors

  /** The four `update_actor_tags` calls. The source binds one list to all four names, so each
      call receives every tag collected so far. */
  function ActorTagEffects(actor: ObjRef, ta: ActorNode, o: Oracle): seq<Effect>
    requires ta.ThreatActor?
  {
    var s := ActorTagList(ta.sophistications, o);
    var m := s + ActorTagList(ta.motivations, o);
    var t := m + ActorTagList(ta.types, o);
    var i := t + ActorTagList(ta.intendedEffects, o);
    [ActorTags(actor, "ActorSophistication", s), ActorTags(actor, "ActorMotivation", m),
     ActorTags(actor, "ActorThreatType", t), ActorTags(actor, "ActorIntendedEffect", i)]
  }

  function ActorFailure(st: State, message: Message): State
  {
    AppendFailure(st, Failure(message, ThreatActorTypeName, ""))
  }

  function ActorSpec(st: State, ta: ActorNode, o: Oracle): State
  {
    match ta
    case NotThreatActor => st
    case ThreatActor(_, _, _, _, _, _, _) =>
      match o.handle(AddNewActor(ta.title, ta.description))
      case Raised => ActorFailure(st, ExceptionText)
      case Returned(res) =>
        match res.success
        case None => ActorFailure(st, ExceptionText)
        case Some(ok) =>
          if !ok then ActorFailure(st, if res.message.Some? then Text(res.message.value) else ExceptionText)
          else if res.id.None? then ActorFailure(st, ExceptionText)
          else
            var calls := Performed(st.effects, ActorTagEffects(res.id.value, ta, o), o);
            if calls.1 then ActorFailure(st.(effects := calls.0), ExceptionText)
            else st.(effects := calls.0, imported := st.imported[ta.id := Entry(Actor, res.id.value)])
  }

  function ActorsSpec(st: State, actors: seq<ActorNode>, o: Oracle): State
    decreases |actors|
  {
    if actors == [] then st else ActorSpec(ActorsSpec(st, actors[..|actors| - 1], o), actors[|actors| - 1], o)
  }

  // ---------------------------------------------------------------------------------------
  // parse_comments

  /** `rel.item.title in 'CRITs Comment(s)'`: the TITLE is a substring of the constant. */
  predicate IsCommentItem(it: RelatedItem)
  {
    Contains(CommentTitle, it.title)
  }

  /** Some existing comment has the item's timestamp as edit date and the item's text. */
  predicate IsDuplicate(existing: seq<StoredComment>, it: RelatedItem)
  {
    StoredComment(it.description, it.timestamp) in existing
  }

  function UrlKey(it: RelatedItem, target: Entry): string
  {
    if it.shortDescription != "" then it.shortDescription else target.obj.key
  }

  function LastContributor(names: seq<string>): Option<string>
  {
    if names == [] then None else Some(names[|names| - 1])
  }

  /** The `comment_add` call for a comment item on `target`. */
  function CommentCall(target: Entry, it: RelatedItem): Effect
  {
    CommentAdded(target, it.description, UrlKey(it, target), it.timestamp, LastContributor(it.contributors))
  }

  /** A `comment_add` that returns: the comment is stored on the entity with the item's
      timestamp. */
  function AddComment(st: State, target: Entry, it: RelatedItem): State
  {
    st.(comments := st.comments[target := Get(st.comments, target, []) + [StoredComment(it.description, it.timestamp)]],
        effects := st.effects + [CommentCall(target, it)])
  }

  /** One related item. The pass has no `try`: a raising `comment_add` ends the run. */
  function CommentItemStep(p: Progress, target: Entry, existing: seq<StoredComment>, it: RelatedItem, o: Oracle): Progress
  {
    if p.raised || !IsCommentItem(it) || IsDuplicate(existing, it) then p
    else if o.callRaises(CommentCall(target, it)) then Progress(p.st, true)
    else Progress(AddComment(p.st, target, it), false)
  }

  /** The related items of one indicator, checked against the comments fetched once before. */
  function CommentItemsSpec(st: State, target: Entry, existing: seq<StoredComment>, items: seq<RelatedItem>, o: Oracle): Progress
    decreases |items|
  {
    if items == [] then Progress(st, false)
    else CommentItemStep(CommentItemsSpec(st, target, existing, items[..|items| - 1], o), target, existing, items[|items| - 1], o)
  }

  /** `was_saved`: the indicator's id is a key of the import ledger. */
  predicate WasSaved(imported: map<Id, Entry>, ind: StixIndicator)
  {
    ind.id in imported
  }

  /** A saved indicator: `get_comments` (which may raise), then its related items. */
  function IndicatorCommentsSpec(st: State, ind: StixIndicator, o: Oracle): Progress
  {
    if WasSaved(st.imported, ind) then
      var target := st.imported[ind.id];
      if o.commentsRaise(target) then Progress(st, true)
      else CommentItemsSpec(st, target, Get(st.comments, target, []), ind.relatedIndicators, o)
    else Progress(st, false)
  }

  function CommentsSpec(st: State, inds: seq<StixIndicator>, o: Oracle): Progress
    decreases |inds|
  {
    if inds == [] then Progress(st, false)
    else
      var p := CommentsSpec(st, inds[..|inds| - 1], o);
      if p.raised then p else IndicatorCommentsSpec(p.st, inds[|inds| - 1], o)
  }

  // ---------------------------------------------------------------------------------------
  // relate_objects

  /** The edge from the Event to the entity under `id`: the hinted one, else a default one
      unless the entity is the Event itself. */
  function EventEdgeFor(imported: map<Id, Entry>, rels: map<Id, EventRel>, evt: ObjRef, id: Id): Option<Edge>
    requires id in imported
  {
    if id in rels then Some(Edge(evt, imported[id].obj, rels[id].relType, rels[id].confidence))
    else if imported[id].kind != Event then Some(Edge(evt, imported[id].obj, RelatedTo, UnknownConfidence))
    else None
  }

  /** The event edges, following the ledger's iteration order `order`. */
  function EventEdges(imported: map<Id, Entry>, rels: map<Id, EventRel>, evt: ObjRef, order: seq<Id>): seq<Edge>
    requires forall id :: id in order ==> id in imported
    decreases |order|
  {
    if order == [] then []
    else
      var prefix := EventEdges(imported, rels, evt, order[..|order| - 1]);
      match EventEdgeFor(imported, rels, evt, order[|order| - 1])
      case None => prefix
      case Some(e) => prefix + [e]
  }

  /** Both endpoints of a deferred relationship are in the ledger. */
  predicate Resolvable(imported: map<Id, Entry>, r: Relationship)
  {
    r.left in imported && r.right in imported
  }

  function DeferredEdges(imported: map<Id, Entry>, rels: seq<Relationship>): seq<Edge>
    decreases |rels|
  {
    if rels == [] then []
    else
      var prefix := DeferredEdges(imported, rels[..|rels| - 1]);
      var r := rels[|rels| - 1];
      if Resolvable(imported, r) then prefix + [EdgeOf(imported, r)] else prefix
  }

  /** The edge a resolvable deferred relationship becomes. */
  function EdgeOf(imported: map<Id, Entry>, r: Relationship): Edge
    requires Resolvable(imported, r)
  {
    Edge(imported[r.left].obj, imported[r.right].obj, r.relType, r.confidence)
  }

  function SavedObjects(imported: map<Id, Entry>, order: seq<Id>): (s: seq<ObjRef>)
    requires forall id :: id in order ==> id in imported
    ensures |s| == |order| && forall k :: 0 <= k < |order| ==> s[k] == imported[order[k]].obj
    decreases |order|
  {
    if order == [] then [] else SavedObjects(imported, order[..|order| - 1]) + [imported[order[|order| - 1]].obj]
  }

  /** `order` lists every ledger key exactly once (one iteration order of the dict). */
  ghost predicate IsKeyOrder(order: seq<Id>, imported: map<Id, Entry>)
  {
    (forall i, j :: 0 <= i < j < |order| ==> order[i] != order[j]) &&
    (forall id :: id in order <==> id in imported)
  }

  // ---------------------------------------------------------------------------------------
  // parse_stix: source resolution, the Event, and the order of the passes.

  /** The header's information-source name, when the header has one. */
  function HeaderIdentity(pkg: Package): Option<Identity>
  {
    if pkg.header.Some? then pkg.header.value.identity else None
  }

  /** The identity's name, when the header has an identity with a name. */
  function HeaderSource(pkg: Package): Option<string>
  {
    if HeaderIdentity(pkg).Some? then HeaderIdentity(pkg).value.name else None
  }

  /** The reference with the information source noted: `ref + ", STIX Source: X"`, or just
      `"STIX Source: X"` when `ref` is empty; unchanged without a (non-empty) source. */
  function StixReference(reference: string, info: Option<string>): (r: string)
    ensures info.None? || info.value == "" ==> r == reference
    ensures info.Some? && info.value != "" && reference == "" ==> r == "STIX Source: " + info.value
    ensures info.Some? && info.value != "" && reference != "" ==> r == reference + ", STIX Source: " + info.value
  {
    if info.Some? && info.value != "" then
      (if reference == "" then "" else reference + ", ") + "STIX Source: " + info.value
    else reference
  }

  /** The caller's source if the knowledge base knows it, else the document's, else none.
      A missing document source is never known. */
  function ResolveSource(requested: string, info: Option<string>, o: Oracle): (r: Option<string>)
    ensures r == Some(requested) <== o.sourceExists(requested)
    ensures r.Some? && !o.sourceExists(requested) ==> info.Some? && r == info && o.sourceExists(info.value)
    ensures r.None? <==> !o.sourceExists(requested) && (info.None? || !o.sourceExists(info.value))
  {
    if o.sourceExists(requested) then Some(requested)
    else if info.Some? && o.sourceExists(info.value) then info
    else None
  }

  function EventTitle(pkg: Package): string
  {
    if pkg.header.Some? && pkg.header.value.title != "" then pkg.header.value.title
    else "STIX Document " + pkg.id
  }

  /** The mapped first package intent; the default when there is none or the lookup raises. */
  function EventTypeOf(pkg: Package, o: Oracle): string
  {
    if pkg.header.Some? && pkg.header.value.packageIntents != [] && o.eventType(pkg.header.value.packageIntents[0]).Some?
    then o.eventType(pkg.header.value.packageIntents[0]).value
    else IntelSharing
  }

  function EventDescription(pkg: Package, now: string): string
  {
    if pkg.header.Some? && pkg.header.value.description != "" then pkg.header.value.description else now
  }

  function EventRequest(pkg: Package, env: Env, now: string, o: Oracle): Request
  {
    AddNewEvent(EventTitle(pkg), EventDescription(pkg, now), EventTypeOf(pkg, o), env.sourceName,
                env.acquisitionMethod, env.reference, now, env.analyst)
  }

  /** The relation hints of the first incident; a later hint for the same id wins. */
  function HintsMap(hints: seq<EventHint>): (m: map<Id, EventRel>)
    ensures forall id :: id in m <==> exists i :: 0 <= i < |hints| && hints[i].idref == id
    decreases |hints|
  {
    if hints == [] then map[]
    else
      var init := hints[..|hints| - 1];
      var h := hints[|hints| - 1];
      assert forall i :: 0 <= i < |init| ==> init[i] == hints[i];
      HintsMap(init)[h.idref := EventRel(h.relType, h.confidence)]
  }

  /** Each id maps to the relation of the last hint that names it. */
  lemma HintsMapValues(hints: seq<EventHint>)
    ensures forall i :: 0 <= i < |hints| && LastHintFor(hints, i) ==>
              hints[i].idref in HintsMap(hints) &&
              HintsMap(hints)[hints[i].idref] == EventRel(hints[i].relType, hints[i].confidence)
  {
    forall i | 0 <= i < |hints| && LastHintFor(hints, i)
      ensures hints[i].idref in HintsMap(hints) &&
              HintsMap(hints)[hints[i].idref] == EventRel(hints[i].relType, hints[i].confidence)
    {
      HintsMapLast(hints, i);
    }
  }

  /** The same, for one hint. */
  lemma {:induction false} HintsMapLast(hints: seq<EventHint>, i: int)
    requires 0 <= i < |hints| && LastHintFor(hints, i)
    ensures hints[i].idref in HintsMap(hints) && HintsMap(hints)[hints[i].idref] == EventRel(hints[i].relType, hints[i].confidence)
    decreases |hints|
  {
    var init := hints[..|hints| - 1];
    if i < |init| {
      assert init[i] == hints[i];
      assert LastHintFor(init, i);
      HintsMapLast(init, i);
    }
  }

  /** No later hint names the same id as hint `i`. */
  predicate LastHintFor(hints: seq<EventHint>, i: int)
    requires 0 <= i < |hints|
  {
    forall j :: i < j < |hints| ==> hints[j].idref != hints[i].idref
  }

  /** Everything the parser object holds between calls. */
  datatype SourceInstance = SourceInstance(acquisitionMethod: string, reference: string, analyst: string)

  datatype Run = Run(
    st: State, event: Option<ObjRef>, eventRels: map<Id, EventRel>, sourceName: string,
    instances: seq<SourceInstance>, informationSource: Option<string>)

  datatype RunOutcome = RunCompleted | NoSource(message: string) | RunCrashed

  /** The Event step: `add_new_event`, then on success the Event entry and the relation hints,
      on failure one failure record. `res['success']`, `res['object']` and `res['message']`
      are read directly: a missing key (or a raising handler) ends the run, reported by the
      boolean. */
  function EventSpec(r: Run, pkg: Package, env: Env, now: string, o: Oracle): (Run, bool)
  {
    match o.handle(EventRequest(pkg, env, now, o))
    case Raised => (r, true)
    case Returned(res) =>
      match res.success
      case None => (r, true)
      case Some(ok) =>
        if ok then
          if res.obj.None? then (r, true)
          else (r.(event := Some(res.obj.value),
                   st := r.st.(imported := r.st.imported[pkg.id := Entry(Event, res.obj.value)]),
                   eventRels := r.eventRels + HintsMap(pkg.incidentHints)), false)
        else if res.message.None? then (r, true)
        else (r.(st := AppendFailure(r.st, Failure(Text(res.message.value), EventTypeName, ""))), false)
  }

  /** The indicator passes: the walk, the campaign pass only after a campaign marker, then the
      comment pass. The boolean reports a crash. */
  function IndicatorPhase(st: State, pkg: Package, env: Env, o: Oracle): (State, bool)
  {
    var w := IndicatorsSpec(st, pkg.indicators, env, o);
    if w.outcome == WalkCrashed then (w.st, true)
    else
      var c := if w.outcome == CampaignMarkerSeen && pkg.indicators != []
               then CampaignsSpec(w.st, pkg.indicators[0].id, pkg.campaigns, o)
               else Progress(w.st, false);
      if c.raised then (c.st, true)
      else
        var cm := CommentsSpec(c.st, pkg.indicators, o);
        (cm.st, cm.raised)
  }

  /** The passes after the Event: indicators (if any), observables (if any), threat actors
      (if any), in that order. */
  function WalkPhases(st: State, pkg: Package, env: Env, o: Oracle): (State, bool)
  {
    var (s1, crashed) := if pkg.indicators != [] then IndicatorPhase(st, pkg, env, o) else (st, false);
    if crashed then (s1, true)
    else
      var s2 := if pkg.observables != [] then ObservablesSpec(s1, pkg.observables, env, o) else s1;
      (if pkg.threatActors != [] then ActorsSpec(s2, pkg.threatActors, o) else s2, false)
  }

  /** A header identity replaces the noted information source with its name, even with an
      absent name; without an identity the noted one stays. */
  function Noted(r0: Run, pkg: Package): Run
  {
    if HeaderIdentity(pkg).Some? then r0.(informationSource := HeaderIdentity(pkg).value.name) else r0
  }

  /** The chosen source and the new source instance. */
  function Started(r1: Run, name: string, ref: string, analyst: string, acquisitionMethod: string): Run
  {
    r1.(sourceName := name, instances := r1.instances + [SourceInstance(acquisitionMethod, ref, analyst)])
  }

  /** The Event step, when the caller asked for one. */
  function MaybeEvent(r2: Run, makeEvent: bool, pkg: Package, env: Env, now: string, o: Oracle): (Run, bool)
  {
    if makeEvent then EventSpec(r2, pkg, env, now, o) else (r2, false)
  }

  /** The walk passes and the outcome they give the run. */
  function Finished(r3: Run, pkg: Package, env: Env, o: Oracle): (Run, RunOutcome)
  {
    var w := WalkPhases(r3.st, pkg, env, o);
    (r3.(st := w.0), if w.1 then RunCrashed else RunCompleted)
  }

  /** Everything after the source is settled: the Event step, then the walk passes. */
  function Imported(r2: Run, makeEvent: bool, pkg: Package, env: Env, now: string, o: Oracle): (Run, RunOutcome)
  {
    var ev := MaybeEvent(r2, makeEvent, pkg, env, now, o);
    if ev.1 then (ev.0, RunCrashed) else Finished(ev.0, pkg, env, o)
  }

  /** `parse_stix`, after the document has been parsed. */
  function RunSpec(r0: Run, pkg: Package, reference: string, makeEvent: bool, requested: string,
                   now: string, analyst: string, acquisitionMethod: string, o: Oracle): (Run, RunOutcome)
  {
    var r1 := Noted(r0, pkg);
    var ref := StixReference(reference, HeaderSource(pkg));
    match ResolveSource(requested, r1.informationSource, o)
    case None => (r1, NoSource(NoSourceMessage))
    case Some(name) =>
      Imported(Started(r1, name, ref, analyst, acquisitionMethod), makeEvent, pkg,
               Env(pkg.id, name, acquisitionMethod, ref, analyst), now, o)
  }
}
