/** The STIX import engine as an object: `STIXParser` holds the run's ledgers and updates them
    in place pass by pass. Every method is proved against the pure specification of its pass
    in `Passes`; the properties of those specifications are in `Properties`. */
module Parser {
  import opened Common
  import opened Stix
  import opened Lookups
  import opened Passes
  import Properties

  class STIXParser {
    /** `source_instance.analyst` and `source_instance.method`, fixed at construction. */
    const analyst: string
    const acquisitionMethod: string

    var packageId: Id                          // self.package.id_
    var sourceName: string                     // self.source.name
    var sourceInstances: seq<SourceInstance>   // self.source.instances
    var reference: string                      // self.source_instance.reference
    var informationSource: Option<string>      // self.information_source
    var event: Option<ObjRef>                  // self.event
    var eventRels: map<Id, EventRel>           // self.event_rels
    var relationships: seq<Relationship>       // self.relationships
    var imported: map<Id, Entry>               // self.imported
    var failed: seq<Failure>                   // self.failed

    /** The calls whose results the engine ignores, in the order they were made. */
    var effects: seq<Effect>
    /** The comments the knowledge base holds per entity (read by get_comments). */
    var comments: map<Entry, seq<StoredComment>>
    /** The edges `relate_objects` creates, and the objects it saves, in order. */
    var edges: seq<Edge>
    var saved: seq<ObjRef>

    /** The part of the object the walk passes change. */
    function Current(): State
      reads this
    {
      State(imported, failed, relationships, effects, comments)
    }

    /** Everything `parse_stix` changes. */
    function Snapshot(): Run
      reads this
    {
      Run(Current(), event, eventRels, sourceName, sourceInstances, informationSource)
    }

    /** The run-scoped values the passes read. */
    function RunEnv(): Env
      reads this
    {
      Env(packageId, sourceName, acquisitionMethod, reference, analyst)
    }

    /** `__init__`: empty ledgers, no Event, no source yet; `knownComments` is the comment
        store of the knowledge base the run writes into. */
    constructor (analyst: string, acquisitionMethod: string, knownComments: map<Entry, seq<StoredComment>>)
      ensures this.analyst == analyst && this.acquisitionMethod == acquisitionMethod
      ensures Snapshot() == Run(State(map[], [], [], [], knownComments), None, map[], "", [], None)
      ensures packageId == "" && reference == "" && edges == [] && saved == []
    {
      this.analyst := analyst;
      this.acquisitionMethod := acquisitionMethod;
      packageId := "";
      sourceName := "";
      sourceInstances := [];
      reference := "";
      informationSource := None;
      event := None;
      eventRels := map[];
      relationships := [];
      imported := map[];
      failed := [];
      effects := [];
      comments := knownComments;
      edges := [];
      saved := [];
    }

    // -------------------------------------------------------------------------------------
    // parse_res

    /** `parse_res`: the decision is `success`, or `status` when `success` is absent. A success
        records `(kind, object)` under `oid` and nothing else; a failure leaves the import ledger
        alone and appends exactly one failure. `raised` reports the KeyError of a success
        without an object. */
    method ParseRes(kind: Kind, oid: Id, res: HandlerResult) returns (raised: bool)
      modifies this`imported, this`failed
      ensures Progress(Current(), raised) == ParseResSpec(old(Current()), kind, oid, res)
      ensures raised <==> Succeeded(res) && res.obj.None?
      ensures Succeeded(res) && res.obj.Some? ==>
                imported == old(imported)[oid := Entry(kind, res.obj.value)] && failed == old(failed)
      ensures !Succeeded(res) ==>
                imported == old(imported) &&
                failed == old(failed) + [Failure(Text(FailureText(res)), ObservableTypeName, oid)]
      ensures raised ==> imported == old(imported) && failed == old(failed)
    {
      var s := res.success;
      if s.None? {
        s := res.status;
      }
      if s == Some(true) {
        if res.obj.None? {
          raised := true;
        } else {
          imported := imported[oid := Entry(kind, res.obj.value)];
          raised := false;
        }
      } else {
        var msg: string;
        if res.reason.Some? {
          msg := res.reason.value;
        } else if res.message.Some? {
          msg := res.message.value;
        } else {
          msg := UnknownFailureMessage;
        }
        failed := failed + [Failure(Text(msg), ObservableTypeName, oid)];
        raised := false;
      }
    }

    /** A handler call's reply handed to `parse_res`; a raising handler skips it. */
    method ParseReply(kind: Kind, oid: Id, reply: Reply) returns (raised: bool)
      modifies this`imported, this`failed
      ensures Progress(Current(), raised) == ReplySpec(old(Current()), kind, oid, reply)
    {
      match reply
      case Raised => raised := true;
      case Returned(res) => raised := ParseRes(kind, oid, res);
    }

    // -------------------------------------------------------------------------------------
    // parse_observables

    /** A `for value in ...` loop of parse_observables; an exception leaves the loop. */
    method ParseValues(kind: Kind, oid: Id, rule: ValueRule, values: seq<string>, o: Oracle) returns (raised: bool)
      modifies this`imported, this`failed
      ensures Progress(Current(), raised) == ValuesSpec(old(Current()), kind, oid, rule, values, o)
    {
      raised := false;
      var i := 0;
      while i < |values| && !raised
        invariant 0 <= i <= |values|
        invariant Progress(Current(), raised) == ValuesSpec(old(Current()), kind, oid, rule, values[..i], o)
      {
        assert values[..i + 1][..i] == values[..i];
        ghost var p := Progress(Current(), raised);
        var req := RequestFor(rule, values[i]);
        if req.Some? {
          raised := ParseReply(kind, oid, o.handle(req.value));
        }
        assert Progress(Current(), raised) == ValueStep(p, kind, oid, rule, values[i], o);
        i := i + 1;
      }
      if raised {
        Properties.ValuesStopAtRaise(old(Current()), kind, oid, rule, values, o, i);
      } else {
        assert values[..i] == values;
      }
    }

    /** The payload loop over a File's related objects: the LAST admitted Artifact's data. */
    method LastArtifact(related: seq<Related>, f: ArtifactFilter) returns (data: Option<Bytes>)
      ensures data == LastArtifactData(related, f)
      ensures data.None? <==> forall i :: 0 <= i < |related| ==> !Admits(f, related[i])
    {
      data := None;
      for i := 0 to |related|
        invariant data == LastArtifactData(related[..i], f)
      {
        assert related[..i + 1][..i] == related[..i];
        if Admits(f, related[i]) {
          data := Some(related[i].data);
        }
      }
      assert related[..|related|] == related;
    }

    /** The deferred "Contains" edges of an email's attachments. */
    method DeferAttachments(oid: Id, attachments: seq<Id>)
      modifies this`relationships
      ensures relationships == old(relationships) + ContainsEdges(oid, attachments)
    {
      for i := 0 to |attachments|
        invariant relationships == old(relationships) + ContainsEdges(oid, attachments[..i])
      {
        assert attachments[..i + 1][..i] == attachments[..i];
        relationships := relationships + [Relationship(oid, "Contains", attachments[i], "High")];
      }
      assert attachments[..|attachments|] == attachments;
    }

    /** A call whose result is ignored: recorded when it returns, not when it raises. */
    method Call(e: Effect, o: Oracle) returns (raised: bool)
      modifies this`effects
      ensures raised == o.callRaises(e)
      ensures effects == if raised then old(effects) else old(effects) + [e]
    {
      raised := o.callRaises(e);
      if !raised {
        effects := effects + [e];
      }
    }

    /** The File branch that imports a Sample, then its extracted file names. */
    method ParseSample(oid: Id, item: Props, o: Oracle) returns (raised: bool)
      requires item.File?
      modifies this`imported, this`failed, this`effects
      ensures Progress(Current(), raised) == SampleSpec(old(Current()), oid, item, o)
    {
      var data := LastArtifact(item.related, OfType(FileData));
      var reply := o.handle(HandleFile(item.fileName, data, item.md5));
      raised := ParseReply(Sample, oid, reply);
      if !raised && item.extractedFeatures.Some? {
        match reply
        case Raised =>
        case Returned(res) =>
          if res.obj.None? {
            raised := true;
          } else {
            var e := SampleFilenames(res.obj.value, item.extractedFeatures.value);
            ghost var before := effects;
            raised := Call(e, o);
            Properties.PerformedStep(before, [e], o, 0);
            assert [e][..0] == [] && [e][..1] == [e];
          }
      }
    }

    /** The EmailMessage branch. */
    method ParseEmail(oid: Id, item: Props, o: Oracle) returns (raised: bool)
      requires item.EmailMessage?
      modifies this`imported, this`failed, this`relationships
      ensures Progress(Current(), raised) == EmailSpec(old(Current()), oid, item, RunEnv(), o)
    {
      var reply := o.handle(HandleEmailFields(EmailFields(item, RunEnv())));
      raised := ParseReply(Email, oid, reply);
      if !raised && reply.Returned? && reply.res.status == Some(true) {
        DeferAttachments(oid, item.attachments);
      }
    }

    /** The body of the `try` block for one component: the IP step, then the elif chain. */
    method ParseItem(oid: Id, item: Props, o: Oracle) returns (raised: bool)
      modifies this`imported, this`failed, this`relationships, this`effects
      ensures Progress(Current(), raised) == BodySpec(old(Current()), oid, item, RunEnv(), o)
    {
      raised := false;
      if item.Address? && item.category in IpCategories {
        raised := ParseValues(IP, oid, IpRule(o.ipType(item.category)), item.values, o);
      }
      if raised {
        return;
      }
      match Classify(item)
      case DomainBranch =>
        raised := ParseValues(Domain, oid, DomainRule, item.values, o);
      case RawDataBranch =>
        var text := o.decodeUtf8(item.data);
        if text.None? {
          raised := true;
        } else {
          var reply := o.handle(HandleRawData(text.value, ArtifactTitle(packageId), sourceName, acquisitionMethod, reference));
          raised := ParseReply(RawData, oid, reply);
        }
      case CertificateBranch =>
        var data := LastArtifact(item.related, AnyArtifact);
        raised := ParseReply(Certificate, oid, o.handle(HandleCertFile(item.fileName, data)));
      case PcapBranch =>
        var data := LastArtifact(item.related, OfType(NetworkTraffic));
        raised := ParseReply(PCAP, oid, o.handle(HandlePcapFile(item.fileName, data)));
      case SampleBranch =>
        raised := ParseSample(oid, item, o);
      case EmailBranch =>
        raised := ParseEmail(oid, item, o);
      case IndicatorBranch =>
        var co := o.makeObject(item);
        if co.None? {
          raised := true;
        } else if co.value.objectType != "Address" {
          raised := ParseValues(Indicator, oid, IndicatorRule(co.value.objectType), co.value.values, o);
        }
    }

    /** One component of the observable `oid`. */
    method ParseComponent(oid: Id, comp: Observable, o: Oracle)
      modifies this`imported, this`failed, this`relationships, this`effects
      ensures Current() == ComponentSpec(old(Current()), oid, comp, RunEnv(), o)
    {
      if comp.obj.None? || comp.obj.value.properties.None? {
        failed := failed + [Failure(Text(NoPropertiesMessage), ObservableTypeName, comp.id)];
        return;
      }
      var item := comp.obj.value.properties.value;
      var raised := ParseItem(oid, item, o);
      if raised {
        failed := failed + [Failure(ExceptionText, TypeName(item), comp.obj.value.id)];
      }
    }

    /** `parse_observables`. */
    method ParseObservables(list: seq<Observable>, o: Oracle)
      modifies this`imported, this`failed, this`relationships, this`effects
      ensures Current() == ObservablesSpec(old(Current()), list, RunEnv(), o)
    {
      for i := 0 to |list|
        invariant Current() == ObservablesSpec(old(Current()), list[..i], RunEnv(), o)
      {
        assert list[..i + 1][..i] == list[..i];
        var obs := list[i];
        var comps := if obs.composition.Some? then obs.composition.value else [obs];
        ghost var before := Current();
        for j := 0 to |comps|
          invariant Current() == ComponentsSpec(before, obs.id, comps[..j], RunEnv(), o)
        {
          assert comps[..j + 1][..j] == comps[..j];
          ParseComponent(obs.id, comps[j], o);
        }
        assert comps[..|comps|] == comps;
      }
      assert list[..|list|] == list;
    }

    // -------------------------------------------------------------------------------------
    // parse_indicators

    /** `handle_indicator_ind`'s reply inside parse_indicators: `success`, `object` and
        `message` are read directly. A success records the indicator under `indId`; a failure
        appends one failure with the handler's message; a missing key or a handler that raises
        changes nothing and reports the exception. */
    method RecordIndicatorReply(indId: Id, reply: Reply, typeName: string, objId: Id) returns (raised: bool)
      modifies this`imported, this`failed
      ensures Progress(Current(), raised) == IndicatorReplySpec(old(Current()), indId, reply, typeName, objId)
      ensures raised <==> reply.Raised? || reply.res.success.None? ||
                          (reply.res.success == Some(true) && reply.res.obj.None?) ||
                          (reply.res.success == Some(false) && reply.res.message.None?)
      ensures reply.Returned? && reply.res.success == Some(true) && reply.res.obj.Some? ==>
                imported == old(imported)[indId := Entry(Indicator, reply.res.obj.value)] && failed == old(failed)
      ensures reply.Returned? && reply.res.success == Some(false) && reply.res.message.Some? ==>
                imported == old(imported) &&
                failed == old(failed) + [Failure(Text(reply.res.message.value), typeName, objId)]
      ensures raised ==> imported == old(imported) && failed == old(failed)
    {
      raised := false;
      match reply
      case Raised => raised := true;
      case Returned(res) =>
        if res.success.None? {
          raised := true;
        } else if res.success.value {
          if res.obj.None? {
            raised := true;
          } else {
            imported := imported[indId := Entry(Indicator, res.obj.value)];
          }
        } else if res.message.None? {
          raised := true;
        } else {
          failed := failed + [Failure(Text(res.message.value), typeName, objId)];
        }
    }

    /** The `try` block for one observable of an ordinary indicator. */
    method ParseIndicatorItem(indId: Id, item: Props, objId: Id, o: Oracle)
      modifies this`imported, this`failed
      ensures Current() == IndicatorItemSpec(old(Current()), indId, item, objId, o)
    {
      var co := o.makeObject(item);
      if co.None? {
        failed := failed + [Failure(ExceptionText, TypeName(item), objId)];
        return;
      }
      var t := co.value.objectType;
      var values := co.value.values;
      var raised := false;
      var i := 0;
      while i < |values| && !raised
        invariant 0 <= i <= |values|
        invariant Progress(Current(), raised) == IndicatorValuesSpec(old(Current()), indId, t, values[..i], TypeName(item), objId, o)
      {
        assert values[..i + 1][..i] == values[..i];
        var req := RequestFor(IndicatorRule(t), values[i]);
        if req.Some? {
          raised := RecordIndicatorReply(indId, o.handle(req.value), TypeName(item), objId);
        }
        i := i + 1;
      }
      if raised {
        Properties.IndicatorValuesStopAtRaise(old(Current()), indId, t, values, TypeName(item), objId, o, i);
        failed := failed + [Failure(ExceptionText, TypeName(item), objId)];
      } else {
        assert values[..i] == values;
      }
    }

    /** The observables of an ordinary indicator; one without properties ends the run. */
    method ParseIndicatorObservables(indId: Id, list: seq<Observable>, o: Oracle) returns (outcome: WalkOutcome)
      modifies this`imported, this`failed
      ensures Walk(Current(), outcome) == IndicatorObservablesSpec(old(Current()), indId, list, o)
    {
      outcome := Walked;
      var i := 0;
      while i < |list| && outcome == Walked
        invariant 0 <= i <= |list|
        invariant Walk(Current(), outcome) == IndicatorObservablesSpec(old(Current()), indId, list[..i], o)
      {
        assert list[..i + 1][..i] == list[..i];
        var obs := list[i];
        if obs.obj.None? || obs.obj.value.properties.None? {
          outcome := WalkCrashed;
        } else {
          ParseIndicatorItem(indId, obs.obj.value.properties.value, obs.obj.value.id, o);
        }
        i := i + 1;
      }
      if outcome != Walked {
        Properties.IndicatorObservablesStopAtCrash(old(Current()), indId, list, o, i);
      } else {
        assert list[..i] == list;
      }
    }

    /** `parse_indicators`: `CampaignMarkerSeen` is the source's `return False`. */
    method ParseIndicators(inds: seq<StixIndicator>, o: Oracle) returns (outcome: WalkOutcome)
      modifies this`imported, this`failed, this`relationships, this`effects
      ensures Walk(Current(), outcome) == IndicatorsSpec(old(Current()), inds, RunEnv(), o)
    {
      outcome := Walked;
      var i := 0;
      while i < |inds| && outcome == Walked
        invariant 0 <= i <= |inds|
        invariant Walk(Current(), outcome) == IndicatorsSpec(old(Current()), inds[..i], RunEnv(), o)
      {
        assert inds[..i + 1][..i] == inds[..i];
        var ind := inds[i];
        if IsWrapper(ind) {
          ParseObservables(ind.observables, o);
          if ind.observables == [] {
            outcome := WalkCrashed;
          } else {
            var key := ind.observables[0].id;
            ghost var walked := imported;
            var result := if key in imported then Some(imported[key]) else None;
            imported := imported - {key};
            if result.Some? {
              imported := imported[ind.id := result.value];
            }
            assert imported == Rekey(walked, key, ind.id);
          }
        } else if IsCampaignMarker(ind) {
          outcome := CampaignMarkerSeen;
        } else {
          outcome := ParseIndicatorObservables(ind.id, ind.observables, o);
        }
        i := i + 1;
      }
      if outcome != Walked {
        Properties.IndicatorsStopAtMarker(old(Current()), inds, RunEnv(), o, i);
      } else {
        assert inds[..i] == inds;
      }
    }

    // -------------------------------------------------------------------------------------
    // parse_campaigns

    /** `parse_campaigns`: every campaign's result is written under the FIRST indicator's id.
        `add_campaign` is called outside any `try`: `crashed` reports an exception. */
    method ParseCampaigns(inds: seq<StixIndicator>, campaigns: seq<StixCampaign>, o: Oracle) returns (crashed: bool)
      requires inds != []
      modifies this`imported
      ensures Progress(Current(), crashed) == CampaignsSpec(old(Current()), inds[0].id, campaigns, o)
    {
      crashed := false;
      var i := 0;
      while i < |campaigns| && !crashed
        invariant 0 <= i <= |campaigns|
        invariant Progress(Current(), crashed) == CampaignsSpec(old(Current()), inds[0].id, campaigns[..i], o)
        decreases |campaigns| - i
      {
        assert campaigns[..i + 1][..i] == campaigns[..i];
        var reply := o.handle(AddCampaign(campaigns[i].title, campaigns[i].description));
        if reply.Raised? {
          crashed := true;
        } else if reply.res.id.Some? {
          imported := imported[inds[0].id := Entry(Campaign, reply.res.id.value)];
        }
        i := i + 1;
      }
      if crashed {
        Properties.CampaignsStopAtRaise(old(Current()), inds[0].id, campaigns, o, i);
      } else {
        assert campaigns[..i] == campaigns;
      }
    }

    // -------------------------------------------------------------------------------------
    // parse_threat_actors

    /** One `for v in ...: if v: tags.append(v)` loop over the list all four loops share. */
    method CollectTags(tags: seq<string>, values: seq<string>, o: Oracle) returns (r: seq<string>)
      ensures r == tags + ActorTagList(values, o)
      ensures |tags| <= |r| <= |tags| + |values| && r[..|tags|] == tags
    {
      r := tags;
      for i := 0 to |values|
        invariant r == tags + ActorTagList(values[..i], o)
      {
        assert values[..i + 1][..i] == values[..i];
        var v := o.actorTag(values[i]);
        if v != "" {
          r := r + [v];
        }
      }
      assert values[..|values|] == values;
    }

    /** The `try` block for one threat actor. */
    method ParseThreatActor(ta: ActorNode, o: Oracle)
      modifies this`imported, this`failed, this`effects
      ensures Current() == ActorSpec(old(Current()), ta, o)
    {
      if ta.NotThreatActor? {
        return;
      }
      var reply := o.handle(AddNewActor(ta.title, ta.description));
      if reply.Raised? || reply.res.success.None? {
        failed := failed + [Failure(ExceptionText, ThreatActorTypeName, "")];
        return;
      }
      var res := reply.res;
      if !res.success.value {
        failed := failed + [Failure(if res.message.Some? then Text(res.message.value) else ExceptionText, ThreatActorTypeName, "")];
        return;
      }
      if res.id.None? {
        failed := failed + [Failure(ExceptionText, ThreatActorTypeName, "")];
        return;
      }
      var raised := TagActor(res.id.value, ta, o);
      if raised {
        failed := failed + [Failure(ExceptionText, ThreatActorTypeName, "")];
        return;
      }
      imported := imported[ta.id := Entry(Actor, res.id.value)];
    }

    /** The four tag loops and `update_actor_tags` calls; `sl = ml = tl = il = []` makes the
        four names one list, so each call sees every tag collected so far. The tag lookups
        are pure, so the lists are collected before the calls are made. */
    method TagActor(id: ObjRef, ta: ActorNode, o: Oracle) returns (raised: bool)
      requires ta.ThreatActor?
      modifies this`effects
      ensures (effects, raised) == Performed(old(effects), ActorTagEffects(id, ta, o), o)
    {
      var s := CollectTags([], ta.sophistications, o);
      var m := CollectTags(s, ta.motivations, o);
      var t := CollectTags(m, ta.types, o);
      var i := CollectTags(t, ta.intendedEffects, o);
      raised := CallAll([ActorTags(id, "ActorSophistication", s), ActorTags(id, "ActorMotivation", m),
                         ActorTags(id, "ActorThreatType", t), ActorTags(id, "ActorIntendedEffect", i)], o);
    }

    /** The calls `es` in order, until one raises. */
    method CallAll(es: seq<Effect>, o: Oracle) returns (raised: bool)
      modifies this`effects
      ensures (effects, raised) == Performed(old(effects), es, o)
    {
      raised := false;
      var k := 0;
      while k < |es| && !raised
        invariant 0 <= k <= |es|
        invariant (effects, raised) == Performed(old(effects), es[..k], o)
      {
        Properties.PerformedStep(old(effects), es, o, k);
        raised := Call(es[k], o);
        k := k + 1;
      }
      if raised {
        Properties.PerformedStopAtRaise(old(effects), es, o, k);
      } else {
        assert es[..k] == es;
      }
    }

    /** `parse_threat_actors`. */
    method ParseThreatActors(actors: seq<ActorNode>, o: Oracle)
      modifies this`imported, this`failed, this`effects
      ensures Current() == ActorsSpec(old(Current()), actors, o)
    {
      for i := 0 to |actors|
        invariant Current() == ActorsSpec(old(Current()), actors[..i], o)
      {
        assert actors[..i + 1][..i] == actors[..i];
        ParseThreatActor(actors[i], o);
      }
      assert actors[..|actors|] == actors;
    }

    // -------------------------------------------------------------------------------------
    // parse_comments

    /** The `send` flag: false exactly when some fetched comment has the item's timestamp as
        edit date and the item's text. */
    method ShouldSend(existing: seq<StoredComment>, it: RelatedItem) returns (send: bool)
      ensures send <==> !IsDuplicate(existing, it)
    {
      send := true;
      for k := 0 to |existing|
        invariant send <==> forall m :: 0 <= m < k ==> existing[m] != StoredComment(it.description, it.timestamp)
      {
        if existing[k].editDate == it.timestamp && existing[k].text == it.description {
          send := false;
        }
      }
    }

    /** `parse_comments`: for each imported indicator, its comments are fetched once, then
        every comment item not already among them is added. Nothing is caught: a raising
        `get_comments` or `comment_add` ends the run. */
    method ParseComments(inds: seq<StixIndicator>, o: Oracle) returns (crashed: bool)
      modifies this`effects, this`comments
      ensures Progress(Current(), crashed) == CommentsSpec(old(Current()), inds, o)
    {
      crashed := false;
      var i := 0;
      while i < |inds| && !crashed
        invariant 0 <= i <= |inds|
        invariant Progress(Current(), crashed) == CommentsSpec(old(Current()), inds[..i], o)
      {
        assert inds[..i + 1][..i] == inds[..i];
        crashed := CommentIndicator(inds[i], o);
        i := i + 1;
      }
      if crashed {
        Properties.CommentsStopAtRaise(old(Current()), inds, o, i);
      } else {
        assert inds[..i] == inds;
      }
    }

    /** The comments of one indicator, if it was saved. */
    method CommentIndicator(ind: StixIndicator, o: Oracle) returns (crashed: bool)
      modifies this`effects, this`comments
      ensures Progress(Current(), crashed) == IndicatorCommentsSpec(old(Current()), ind, o)
    {
      crashed := false;
      if !WasSaved(imported, ind) {
        return;
      }
      var target := imported[ind.id];
      if o.commentsRaise(target) {
        crashed := true;
        return;
      }
      var existing := Get(comments, target, []);
      ghost var before := Current();
      var items := ind.relatedIndicators;
      var j := 0;
      while j < |items| && !crashed
        invariant 0 <= j <= |items|
        invariant Progress(Current(), crashed) == CommentItemsSpec(before, target, existing, items[..j], o)
      {
        assert items[..j + 1][..j] == items[..j];
        var it := items[j];
        if IsCommentItem(it) {
          var send := ShouldSend(existing, it);
          if send {
            crashed := Call(CommentCall(target, it), o);
            if !crashed {
              comments := comments[target := Get(comments, target, []) + [StoredComment(it.description, it.timestamp)]];
            }
          }
        }
        j := j + 1;
      }
      if crashed {
        Properties.CommentItemsStopAtRaise(before, target, existing, items, o, j);
      } else {
        assert items[..j] == items;
      }
    }

    // -------------------------------------------------------------------------------------
    // relate_objects

    /** One iteration order of the import ledger: every key exactly once. */
    method LedgerOrder() returns (order: seq<Id>)
      ensures IsKeyOrder(order, imported)
    {
      order := [];
      var remaining := imported.Keys;
      while remaining != {}
        invariant forall id :: id in imported <==> id in order || id in remaining
        invariant forall id :: id in order ==> id !in remaining
        invariant forall i, j :: 0 <= i < j < |order| ==> order[i] != order[j]
        decreases remaining
      {
        var id :| id in remaining;
        order := order + [id];
        remaining := remaining - {id};
      }
    }

    /** The edges from the Event to every imported entity, in `order`. */
    method RelateToEvent(evt: ObjRef, order: seq<Id>)
      requires forall id :: id in order ==> id in imported
      modifies this`edges
      ensures edges == old(edges) + EventEdges(imported, eventRels, evt, order)
    {
      for k := 0 to |order|
        invariant edges == old(edges) + EventEdges(imported, eventRels, evt, order[..k])
      {
        assert order[..k + 1][..k] == order[..k];
        var id := order[k];
        if id in eventRels {
          edges := edges + [Edge(evt, imported[id].obj, eventRels[id].relType, eventRels[id].confidence)];
        } else if imported[id].kind != Event {
          edges := edges + [Edge(evt, imported[id].obj, RelatedTo, UnknownConfidence)];
        }
      }
      assert order[..|order|] == order;
    }

    /** The deferred relationships whose two endpoints were imported. */
    method RelateDeferred()
      modifies this`edges
      ensures edges == old(edges) + DeferredEdges(imported, relationships)
    {
      for k := 0 to |relationships|
        invariant edges == old(edges) + DeferredEdges(imported, relationships[..k])
      {
        assert relationships[..k + 1][..k] == relationships[..k];
        var r := relationships[k];
        if r.left in imported && r.right in imported {
          edges := edges + [Edge(imported[r.left].obj, imported[r.right].obj, r.relType, r.confidence)];
        }
      }
      assert relationships[..|relationships|] == relationships;
    }

    /** Save every imported object, in `order`. */
    method SaveImported(order: seq<Id>)
      requires forall id :: id in order ==> id in imported
      modifies this`saved
      ensures saved == old(saved) + SavedObjects(imported, order)
    {
      for k := 0 to |order|
        invariant saved == old(saved) + SavedObjects(imported, order[..k])
      {
        assert order[..k + 1][..k] == order[..k];
        saved := saved + [imported[order[k]].obj];
      }
      assert order[..|order|] == order;
    }

    /** `relate_objects`: Event edges in the ledger's iteration order `order`, then the
        deferred edges whose endpoints were both imported, then every imported object is
        saved (the Event first). */
    method RelateObjects() returns (order: seq<Id>)
      modifies this`edges, this`saved
      ensures IsKeyOrder(order, imported)
      ensures edges == old(edges) + (if event.Some? then EventEdges(imported, eventRels, event.value, order) else [])
                       + DeferredEdges(imported, relationships)
      ensures saved == old(saved) + (if event.Some? then [event.value] else []) + SavedObjects(imported, order)
    {
      order := LedgerOrder();
      if event.Some? {
        RelateToEvent(event.value, order);
        saved := saved + [event.value];
      }
      RelateDeferred();
      SaveImported(order);
    }

    // -------------------------------------------------------------------------------------
    // parse_stix

    /** The relation hints of the first incident, written into `event_rels` one by one. */
    method RecordEventRels(hints: seq<EventHint>)
      modifies this`eventRels
      ensures eventRels == old(eventRels) + HintsMap(hints)
    {
      for i := 0 to |hints|
        invariant eventRels == old(eventRels) + HintsMap(hints[..i])
      {
        assert hints[..i + 1][..i] == hints[..i];
        Properties.UnionUpdate(old(eventRels), HintsMap(hints[..i]), hints[i].idref, EventRel(hints[i].relType, hints[i].confidence));
        eventRels := eventRels[hints[i].idref := EventRel(hints[i].relType, hints[i].confidence)];
      }
      assert hints[..|hints|] == hints;
    }

    /** The `make_event` step: `add_new_event`, then the Event entry and the relation hints,
        or one failure. `crashed` reports an exception, which the source does not catch. */
    method CreateEvent(pkg: Package, now: string, o: Oracle) returns (crashed: bool)
      modifies this`event, this`imported, this`failed, this`eventRels
      ensures (Snapshot(), crashed) == EventSpec(old(Snapshot()), pkg, RunEnv(), now, o)
    {
      crashed := false;
      var reply := o.handle(EventRequest(pkg, RunEnv(), now, o));
      if reply.Raised? || reply.res.success.None? {
        crashed := true;
        return;
      }
      var res := reply.res;
      if res.success.value {
        if res.obj.None? {
          crashed := true;
        } else {
          event := Some(res.obj.value);
          imported := imported[pkg.id := Entry(Event, res.obj.value)];
          RecordEventRels(pkg.incidentHints);
        }
      } else if res.message.None? {
        crashed := true;
      } else {
        failed := failed + [Failure(Text(res.message.value), EventTypeName, "")];
      }
    }

    /** The header identity's name is noted (an absent name too), and a non-empty one is named
        in the reference. */
    method NoteInformationSource(pkg: Package, reference: string) returns (ref: string)
      modifies this`informationSource
      ensures informationSource == if HeaderIdentity(pkg).Some? then HeaderIdentity(pkg).value.name else old(informationSource)
      ensures ref == StixReference(reference, HeaderSource(pkg))
    {
      ref := reference;
      var identity := HeaderIdentity(pkg);
      if identity.Some? {
        informationSource := identity.value.name;
        if informationSource.Some? && informationSource.value != "" {
          if ref != "" {
            ref := ref + ", ";
          }
          ref := ref + "STIX Source: " + informationSource.value;
        }
      }
    }

    method ChooseSource(requested: string, o: Oracle) returns (found: bool)
      modifies this`sourceName
      ensures found <==> ResolveSource(requested, informationSource, o).Some?
      ensures found ==> sourceName == ResolveSource(requested, informationSource, o).value
      ensures !found ==> sourceName == old(sourceName)
    {
      found := true;
      if o.sourceExists(requested) {
        sourceName := requested;
      } else if informationSource.Some? && o.sourceExists(informationSource.value) {
        sourceName := informationSource.value;
      } else {
        found := false;
      }
    }

    /** `parse_stix` on an already parsed document: note the information source, resolve the
        source or stop with the fatal error, record the source instance, make the Event when
        asked, then run the indicator, observable and threat-actor passes in that order. */
    method ParseStix(pkg: Package, reference: string, makeEvent: bool, requested: string, now: string, o: Oracle)
      returns (outcome: RunOutcome)
      modifies this`packageId, this`informationSource, this`sourceName, this`reference, this`sourceInstances
      modifies this`event, this`imported, this`failed, this`eventRels, this`relationships, this`effects, this`comments
      ensures packageId == pkg.id
      ensures (Snapshot(), outcome) ==
              RunSpec(old(Snapshot()), pkg, reference, makeEvent, requested, now, analyst, acquisitionMethod, o)
    {
      packageId := pkg.id;
      var ref := NoteInformationSource(pkg, reference);
      ghost var r1 := Snapshot();
      assert r1 == Noted(old(Snapshot()), pkg);
      var found := ChooseSource(requested, o);
      if !found {
        outcome := NoSource(NoSourceMessage);
        return;
      }
      this.reference := ref;
      sourceInstances := sourceInstances + [SourceInstance(acquisitionMethod, ref, analyst)];
      ghost var r2 := Started(r1, sourceName, ref, analyst, acquisitionMethod);
      assert Snapshot() == r2;
      assert RunSpec(old(Snapshot()), pkg, reference, makeEvent, requested, now, analyst, acquisitionMethod, o)
             == Imported(r2, makeEvent, pkg, RunEnv(), now, o);
      outcome := Import(pkg, makeEvent, now, o);
    }

    /** The Event (when asked for), then the passes. */
    method Import(pkg: Package, makeEvent: bool, now: string, o: Oracle) returns (outcome: RunOutcome)
      modifies this`event, this`imported, this`failed, this`eventRels, this`relationships, this`effects, this`comments
      ensures (Snapshot(), outcome) == Imported(old(Snapshot()), makeEvent, pkg, RunEnv(), now, o)
    {
      var crashed := false;
      if makeEvent {
        crashed := CreateEvent(pkg, now, o);
      }
      ghost var r3 := Snapshot();
      assert (r3, crashed) == MaybeEvent(old(Snapshot()), makeEvent, pkg, RunEnv(), now, o);
      if crashed {
        outcome := RunCrashed;
        return;
      }
      crashed := RunPasses(pkg, o);
      outcome := if crashed then RunCrashed else RunCompleted;
      assert (Snapshot(), outcome) == Finished(r3, pkg, RunEnv(), o);
    }

    /** The passes after the Event; `crashed` reports an uncaught exception. */
    method RunPasses(pkg: Package, o: Oracle) returns (crashed: bool)
      modifies this`imported, this`failed, this`relationships, this`effects, this`comments
      ensures (Current(), crashed) == WalkPhases(old(Current()), pkg, RunEnv(), o)
    {
      crashed := false;
      if pkg.indicators != [] {
        var w := ParseIndicators(pkg.indicators, o);
        if w == WalkCrashed {
          crashed := true;
          return;
        }
        if w == CampaignMarkerSeen {
          crashed := ParseCampaigns(pkg.indicators, pkg.campaigns, o);
          if crashed {
            return;
          }
        }
        crashed := ParseComments(pkg.indicators, o);
        if crashed {
          return;
        }
      }
      if pkg.observables != [] {
        ParseObservables(pkg.observables, o);
      }
      if pkg.threatActors != [] {
        ParseThreatActors(pkg.threatActors, o);
      }
    }
  }
}
