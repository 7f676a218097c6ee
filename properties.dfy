/** Properties of the import passes, stated over the specifications in `Passes`. */
module Properties {
  import opened Common
  import opened Stix
  import opened Lookups
  import opened Passes

  // ---------------------------------------------------------------------------------------
  // Once a walk stops, nothing after the stop is processed.

  /** After an exception in a `for value` loop of parse_observables, later values are skipped. */
  lemma {:induction false} ValuesStopAtRaise(st: State, kind: Kind, oid: Id, rule: ValueRule, values: seq<string>, o: Oracle, k: nat)
    requires k <= |values| && ValuesSpec(st, kind, oid, rule, values[..k], o).raised
    ensures ValuesSpec(st, kind, oid, rule, values, o) == ValuesSpec(st, kind, oid, rule, values[..k], o)
    decreases |values|
  {
    if k < |values| {
      var init := values[..|values| - 1];
      assert init[..k] == values[..k];
      ValuesStopAtRaise(st, kind, oid, rule, init, o, k);
    } else {
      assert values[..k] == values;
    }
  }

  /** The same for the value loop of parse_indicators. */
  lemma {:induction false} IndicatorValuesStopAtRaise(st: State, indId: Id, t: string, values: seq<string>, typeName: string, objId: Id, o: Oracle, k: nat)
    requires k <= |values| && IndicatorValuesSpec(st, indId, t, values[..k], typeName, objId, o).raised
    ensures IndicatorValuesSpec(st, indId, t, values, typeName, objId, o) == IndicatorValuesSpec(st, indId, t, values[..k], typeName, objId, o)
    decreases |values|
  {
    if k < |values| {
      var init := values[..|values| - 1];
      assert init[..k] == values[..k];
      IndicatorValuesStopAtRaise(st, indId, t, init, typeName, objId, o, k);
    } else {
      assert values[..k] == values;
    }
  }

  /** A crash on one observable of an indicator ends the walk over its observables. */
  lemma {:induction false} IndicatorObservablesStopAtCrash(st: State, indId: Id, list: seq<Observable>, o: Oracle, k: nat)
    requires k <= |list| && IndicatorObservablesSpec(st, indId, list[..k], o).outcome != Walked
    ensures IndicatorObservablesSpec(st, indId, list, o) == IndicatorObservablesSpec(st, indId, list[..k], o)
    decreases |list|
  {
    if k < |list| {
      var init := list[..|list| - 1];
      assert init[..k] == list[..k];
      IndicatorObservablesStopAtCrash(st, indId, init, o, k);
    } else {
      assert list[..k] == list;
    }
  }

  /** A "MARTI Campaign" indicator (or a crash) ends parse_indicators: the indicators after it
      are not processed at all. */
  lemma {:induction false} IndicatorsStopAtMarker(st: State, inds: seq<StixIndicator>, env: Env, o: Oracle, k: nat)
    requires k <= |inds| && IndicatorsSpec(st, inds[..k], env, o).outcome != Walked
    ensures IndicatorsSpec(st, inds, env, o) == IndicatorsSpec(st, inds[..k], env, o)
    decreases |inds|
  {
    if k < |inds| {
      var init := inds[..|inds| - 1];
      assert init[..k] == inds[..k];
      IndicatorsStopAtMarker(st, init, env, o, k);
    } else {
      assert inds[..k] == inds;
    }
  }

  /** A raising `add_campaign` ends the campaign pass (and the run). */
  lemma {:induction false} CampaignsStopAtRaise(st: State, key: Id, campaigns: seq<StixCampaign>, o: Oracle, k: nat)
    requires k <= |campaigns| && CampaignsSpec(st, key, campaigns[..k], o).raised
    ensures CampaignsSpec(st, key, campaigns, o) == CampaignsSpec(st, key, campaigns[..k], o)
    decreases |campaigns|
  {
    if k < |campaigns| {
      var init := campaigns[..|campaigns| - 1];
      assert init[..k] == campaigns[..k];
      CampaignsStopAtRaise(st, key, init, o, k);
    } else {
      assert campaigns[..k] == campaigns;
    }
  }

  // ---------------------------------------------------------------------------------------
  // Map helpers.

  /** Writing a key after a union is writing it into the right operand. */
  lemma UnionUpdate<K, V>(m: map<K, V>, n: map<K, V>, k: K, v: V)
    ensures (m + n)[k := v] == m + n[k := v]
  {
  }

  // ---------------------------------------------------------------------------------------
  // Frames: which ledger keys a pass may write, and the ledgers that only grow.

  ghost predicate PrefixOf<T>(a: seq<T>, b: seq<T>)
  {
    |a| <= |b| && b[..|a|] == a
  }

  /** `b` only extends `a`: failures, deferred relationships and ignored calls are appended to. */
  ghost predicate Extends(a: State, b: State)
  {
    PrefixOf(a.failed, b.failed) && PrefixOf(a.relationships, b.relationships) && PrefixOf(a.effects, b.effects)
  }

  /** The two ledgers agree on key `k`. */
  predicate SameAt(m1: map<Id, Entry>, m2: map<Id, Entry>, k: Id)
  {
    (k in m1 <==> k in m2) && (k in m1 ==> m1[k] == m2[k])
  }

  /** From `a` to `b` only the import-ledger keys in `ids` change, the comment store does not,
      and the other ledgers only grow. */
  ghost predicate Touches(a: State, b: State, ids: set<Id>)
  {
    Extends(a, b) && b.comments == a.comments && forall k :: k !in ids ==> SameAt(a.imported, b.imported, k)
  }

  lemma PrefixTrans<T>(a: seq<T>, b: seq<T>, c: seq<T>)
    requires PrefixOf(a, b) && PrefixOf(b, c)
    ensures PrefixOf(a, c)
  {
    assert c[..|a|] == c[..|b|][..|a|];
  }

  lemma ExtendsTrans(a: State, b: State, c: State)
    requires Extends(a, b) && Extends(b, c)
    ensures Extends(a, c)
  {
    PrefixTrans(a.failed, b.failed, c.failed);
    PrefixTrans(a.relationships, b.relationships, c.relationships);
    PrefixTrans(a.effects, b.effects, c.effects);
  }

  lemma TouchesTrans(a: State, b: State, c: State, s1: set<Id>, s2: set<Id>)
    requires Touches(a, b, s1) && Touches(b, c, s2)
    ensures Touches(a, c, s1 + s2)
  {
    ExtendsTrans(a, b, c);
  }

  lemma TouchesWiden(a: State, b: State, s1: set<Id>, s2: set<Id>)
    requires Touches(a, b, s1) && s1 <= s2
    ensures Touches(a, b, s2)
  {
  }

  lemma AppendExtends(st: State, f: Failure)
    ensures Touches(st, AppendFailure(st, f), {})
  {
    assert (st.failed + [f])[..|st.failed|] == st.failed;
  }

  /** parse_res and a handler call before it write at most the key `oid`. */
  lemma ReplyTouches(st: State, kind: Kind, oid: Id, reply: Reply)
    ensures Touches(st, ReplySpec(st, kind, oid, reply).st, {oid})
  {
    if reply.Returned? && !Succeeded(reply.res) {
      AppendExtends(st, Failure(Text(FailureText(reply.res)), ObservableTypeName, oid));
    }
  }

  lemma ValueStepTouches(p: Progress, kind: Kind, oid: Id, rule: ValueRule, v: string, o: Oracle)
    ensures Touches(p.st, ValueStep(p, kind, oid, rule, v, o).st, {oid})
  {
    if !p.raised && RequestFor(rule, v).Some? {
      ReplyTouches(p.st, kind, oid, o.handle(RequestFor(rule, v).value));
    }
  }

  lemma {:induction false} ValuesTouches(st: State, kind: Kind, oid: Id, rule: ValueRule, values: seq<string>, o: Oracle)
    ensures Touches(st, ValuesSpec(st, kind, oid, rule, values, o).st, {oid})
    decreases |values|
  {
    if values != [] {
      var init := values[..|values| - 1];
      var p := ValuesSpec(st, kind, oid, rule, init, o);
      ValuesTouches(st, kind, oid, rule, init, o);
      ValueStepTouches(p, kind, oid, rule, values[|values| - 1], o);
      TouchesTrans(st, p.st, ValuesSpec(st, kind, oid, rule, values, o).st, {oid}, {oid});
    }
  }

  lemma SampleTouches(st: State, oid: Id, item: Props, o: Oracle)
    requires item.File?
    ensures Touches(st, SampleSpec(st, oid, item, o).st, {oid})
  {
    var reply := o.handle(HandleFile(item.fileName, LastArtifactData(item.related, OfType(FileData)), item.md5));
    var p := ReplySpec(st, Sample, oid, reply);
    ReplyTouches(st, Sample, oid, reply);
    if !p.raised && item.extractedFeatures.Some? && reply.Returned? && reply.res.obj.Some? {
      PerformedExtends(p.st.effects, [SampleFilenames(reply.res.obj.value, item.extractedFeatures.value)], o);
      TouchesTrans(st, p.st, SampleSpec(st, oid, item, o).st, {oid}, {});
    }
  }

  lemma EmailTouches(st: State, oid: Id, item: Props, env: Env, o: Oracle)
    requires item.EmailMessage?
    ensures Touches(st, EmailSpec(st, oid, item, env, o).st, {oid})
  {
    var reply := o.handle(HandleEmailFields(EmailFields(item, env)));
    var p := ReplySpec(st, Email, oid, reply);
    ReplyTouches(st, Email, oid, reply);
    if !p.raised && reply.Returned? && reply.res.status == Some(true) {
      var rs := p.st.relationships + ContainsEdges(oid, item.attachments);
      assert rs[..|p.st.relationships|] == p.st.relationships;
      TouchesTrans(st, p.st, EmailSpec(st, oid, item, env, o).st, {oid}, {});
    }
  }

  lemma ChainTouches(st: State, oid: Id, item: Props, env: Env, o: Oracle)
    ensures Touches(st, ChainSpec(st, oid, item, env, o).st, {oid})
  {
    match Classify(item)
    case DomainBranch => ValuesTouches(st, Domain, oid, DomainRule, item.values, o);
    case RawDataBranch =>
      if o.decodeUtf8(item.data).Some? {
        ReplyTouches(st, RawData, oid, o.handle(HandleRawData(o.decodeUtf8(item.data).value, ArtifactTitle(env.packageId),
                                                            env.sourceName, env.acquisitionMethod, env.reference)));
      }
    case CertificateBranch =>
      ReplyTouches(st, Certificate, oid, o.handle(HandleCertFile(item.fileName, LastArtifactData(item.related, AnyArtifact))));
    case PcapBranch =>
      ReplyTouches(st, PCAP, oid, o.handle(HandlePcapFile(item.fileName, LastArtifactData(item.related, OfType(NetworkTraffic)))));
    case SampleBranch => SampleTouches(st, oid, item, o);
    case EmailBranch => EmailTouches(st, oid, item, env, o);
    case IndicatorBranch =>
      if o.makeObject(item).Some? && o.makeObject(item).value.objectType != "Address" {
        var co := o.makeObject(item).value;
        ValuesTouches(st, Indicator, oid, IndicatorRule(co.objectType), co.values, o);
      }
  }

  lemma BodyTouches(st: State, oid: Id, item: Props, env: Env, o: Oracle)
    ensures Touches(st, BodySpec(st, oid, item, env, o).st, {oid})
  {
    var p := IpStage(st, oid, item, o);
    if item.Address? && item.category in IpCategories {
      ValuesTouches(st, IP, oid, IpRule(o.ipType(item.category)), item.values, o);
    }
    if !p.raised {
      ChainTouches(p.st, oid, item, env, o);
      TouchesTrans(st, p.st, ChainSpec(p.st, oid, item, env, o).st, {oid}, {oid});
    }
  }

  lemma ComponentTouches(st: State, oid: Id, comp: Observable, env: Env, o: Oracle)
    ensures Touches(st, ComponentSpec(st, oid, comp, env, o), {oid})
  {
    if comp.obj.None? || comp.obj.value.properties.None? {
      AppendExtends(st, Failure(Text(NoPropertiesMessage), ObservableTypeName, comp.id));
    } else {
      var item := comp.obj.value.properties.value;
      var p := BodySpec(st, oid, item, env, o);
      BodyTouches(st, oid, item, env, o);
      if p.raised {
        AppendExtends(p.st, Failure(ExceptionText, TypeName(item), comp.obj.value.id));
        TouchesTrans(st, p.st, ComponentSpec(st, oid, comp, env, o), {oid}, {});
      }
    }
  }

  lemma {:induction false} ComponentsTouches(st: State, oid: Id, comps: seq<Observable>, env: Env, o: Oracle)
    ensures Touches(st, ComponentsSpec(st, oid, comps, env, o), {oid})
    decreases |comps|
  {
    if comps != [] {
      var init := comps[..|comps| - 1];
      ComponentsTouches(st, oid, init, env, o);
      var mid := ComponentsSpec(st, oid, init, env, o);
      ComponentTouches(mid, oid, comps[|comps| - 1], env, o);
      TouchesTrans(st, mid, ComponentsSpec(st, oid, comps, env, o), {oid}, {oid});
    }
  }

  /** The ids of a list of observables. */
  function OuterIds(list: seq<Observable>): (ids: set<Id>)
    ensures forall k :: k in ids <==> exists i :: 0 <= i < |list| && list[i].id == k
    decreases |list|
  {
    if list == [] then {}
    else
      var ids := OuterIds(list[..|list| - 1]) + {list[|list| - 1].id};
      assert forall i :: 0 <= i < |list| - 1 ==> list[..|list| - 1][i] == list[i];
      ids
  }

  /** parse_observables writes the import ledger only under the ids of the OUTER observables
      it is given (every component of a composition is recorded under its outer id), leaves
      the comment store alone, and only appends to the failure ledger, the deferred
      relationships and the ignored calls. */
  lemma {:induction false} ObservablesTouchOuterIds(st: State, list: seq<Observable>, env: Env, o: Oracle)
    ensures Touches(st, ObservablesSpec(st, list, env, o), OuterIds(list))
    decreases |list|
  {
    if list != [] {
      var init := list[..|list| - 1];
      var obs := list[|list| - 1];
      ObservablesTouchOuterIds(st, init, env, o);
      var mid := ObservablesSpec(st, init, env, o);
      ComponentsTouches(mid, obs.id, Components(obs), env, o);
      TouchesTrans(st, mid, ObservablesSpec(st, list, env, o), OuterIds(init), {obs.id});
    }
  }

  // ---------------------------------------------------------------------------------------
  // The last success wins.

  /** The object a value's handler call would record: a request is made, the handler returns,
      parse_res decides success, and the result carries an object. */
  function RecordedBy(rule: ValueRule, v: string, o: Oracle): Option<ObjRef>
  {
    match RequestFor(rule, v)
    case None => None
    case Some(req) =>
      match o.handle(req)
      case Raised => None
      case Returned(res) => if Succeeded(res) then res.obj else None
  }

  lemma ValueStepKeepsRaised(p: Progress, kind: Kind, oid: Id, rule: ValueRule, v: string, o: Oracle)
    requires p.raised
    ensures ValueStep(p, kind, oid, rule, v, o) == p
  {
  }

  /** A value that records nothing leaves the entry under `oid` as it was, unless it raised. */
  lemma ValueStepUnrecorded(p: Progress, kind: Kind, oid: Id, rule: ValueRule, v: string, o: Oracle)
    requires RecordedBy(rule, v, o).None? && !ValueStep(p, kind, oid, rule, v, o).raised
    ensures ValueStep(p, kind, oid, rule, v, o).st.imported == p.st.imported
  {
  }

  /** When a `for value` loop of parse_observables runs to its end, the entry under the outer
      observable id is the one of the LAST value whose import succeeded; when no value's
      import succeeded the entry is as before (failing values only append failures). */
  lemma {:induction false} ValuesLastSuccessWins(st: State, kind: Kind, oid: Id, rule: ValueRule, values: seq<string>, o: Oracle, k: int)
    requires !ValuesSpec(st, kind, oid, rule, values, o).raised
    requires -1 <= k < |values|
    requires k >= 0 ==> RecordedBy(rule, values[k], o).Some?
    requires forall j :: k < j < |values| ==> RecordedBy(rule, values[j], o).None?
    ensures var r := ValuesSpec(st, kind, oid, rule, values, o).st.imported;
            if k >= 0 then oid in r && r[oid] == Entry(kind, RecordedBy(rule, values[k], o).value)
            else SameAt(st.imported, r, oid)
    decreases |values|
  {
    if values != [] {
      var init := values[..|values| - 1];
      var v := values[|values| - 1];
      var p := ValuesSpec(st, kind, oid, rule, init, o);
      if p.raised {
        ValueStepKeepsRaised(p, kind, oid, rule, v, o);
        assert false;
      }
      if k == |values| - 1 {
        assert ValueStep(p, kind, oid, rule, v, o).st.imported == p.st.imported[oid := Entry(kind, RecordedBy(rule, v, o).value)];
      } else {
        ValueStepUnrecorded(p, kind, oid, rule, v, o);
        ValuesLastSuccessWins(st, kind, oid, rule, init, o, k);
      }
    }
  }

  /** The object an indicator value's handler call would record: a request is made, the
      handler returns `success` true and an object. */
  function IndicatorRecordedBy(t: string, v: string, o: Oracle): Option<ObjRef>
  {
    match RequestFor(IndicatorRule(t), v)
    case None => None
    case Some(req) =>
      match o.handle(req)
      case Raised => None
      case Returned(res) => if res.success == Some(true) then res.obj else None
  }

  lemma IndicatorValueStepRecorded(p: Progress, indId: Id, t: string, v: string, typeName: string, objId: Id, o: Oracle)
    requires !p.raised && IndicatorRecordedBy(t, v, o).Some?
    ensures IndicatorValueStep(p, indId, t, v, typeName, objId, o).st.imported ==
            p.st.imported[indId := Entry(Indicator, IndicatorRecordedBy(t, v, o).value)]
  {
  }

  lemma IndicatorValueStepUnrecorded(p: Progress, indId: Id, t: string, v: string, typeName: string, objId: Id, o: Oracle)
    requires IndicatorRecordedBy(t, v, o).None? && !IndicatorValueStep(p, indId, t, v, typeName, objId, o).raised
    ensures IndicatorValueStep(p, indId, t, v, typeName, objId, o).st.imported == p.st.imported
  {
  }

  /** When the value loop of parse_indicators runs to its end, the entry under the indicator id
      is the one of the LAST value whose import succeeded; when none succeeded the entry is as
      before (failing values only append failures). */
  lemma {:induction false} IndicatorValuesLastSuccessWins(st: State, indId: Id, t: string, values: seq<string>, typeName: string, objId: Id, o: Oracle, k: int)
    requires !IndicatorValuesSpec(st, indId, t, values, typeName, objId, o).raised
    requires -1 <= k < |values|
    requires k >= 0 ==> IndicatorRecordedBy(t, values[k], o).Some?
    requires forall j :: k < j < |values| ==> IndicatorRecordedBy(t, values[j], o).None?
    ensures var r := IndicatorValuesSpec(st, indId, t, values, typeName, objId, o).st.imported;
            if k >= 0 then indId in r && r[indId] == Entry(Indicator, IndicatorRecordedBy(t, values[k], o).value)
            else SameAt(st.imported, r, indId)
    decreases |values|
  {
    if values != [] {
      var init := values[..|values| - 1];
      var v := values[|values| - 1];
      var p := IndicatorValuesSpec(st, indId, t, init, typeName, objId, o);
      assert IndicatorValuesSpec(st, indId, t, values, typeName, objId, o) == IndicatorValueStep(p, indId, t, v, typeName, objId, o);
      if p.raised {
        assert false;
      }
      if k == |values| - 1 {
        IndicatorValueStepRecorded(p, indId, t, v, typeName, objId, o);
      } else {
        IndicatorValueStepUnrecorded(p, indId, t, v, typeName, objId, o);
        IndicatorValuesLastSuccessWins(st, indId, t, init, typeName, objId, o, k);
      }
    }
  }

  /** The id `add_campaign` reports for a campaign, if it returns one. */
  function CampaignId(c: StixCampaign, o: Oracle): Option<ObjRef>
  {
    match o.handle(AddCampaign(c.title, c.description))
    case Raised => None
    case Returned(res) => res.id
  }

  /** parse_campaigns changes the import ledger under `key` (the first indicator's id) only,
      and nothing else. */
  lemma {:induction false} CampaignsWriteOnlyKey(st: State, key: Id, campaigns: seq<StixCampaign>, o: Oracle)
    ensures var r := CampaignsSpec(st, key, campaigns, o).st;
            r == st.(imported := r.imported) && forall id :: id != key ==> SameAt(st.imported, r.imported, id)
    decreases |campaigns|
  {
    if campaigns != [] {
      var init := campaigns[..|campaigns| - 1];
      CampaignsWriteOnlyKey(st, key, init, o);
      var mid := CampaignsSpec(st, key, init, o).st;
      var r := CampaignsSpec(st, key, campaigns, o).st;
      forall id | id != key
        ensures SameAt(st.imported, r.imported, id)
      {
        assert SameAt(st.imported, mid.imported, id);
      }
    }
  }

  /** When parse_campaigns completes, the entry under `key` is the LAST campaign that
      reported an id: every campaign overwrites the same entry. */
  lemma {:induction false} CampaignsLastWins(st: State, key: Id, campaigns: seq<StixCampaign>, o: Oracle, k: int)
    requires !CampaignsSpec(st, key, campaigns, o).raised
    requires -1 <= k < |campaigns|
    requires k >= 0 ==> CampaignId(campaigns[k], o).Some?
    requires forall j :: k < j < |campaigns| ==> CampaignId(campaigns[j], o).None?
    ensures var r := CampaignsSpec(st, key, campaigns, o).st.imported;
            if k >= 0 then key in r && r[key] == Entry(Campaign, CampaignId(campaigns[k], o).value)
            else SameAt(st.imported, r, key)
    decreases |campaigns|
  {
    if campaigns != [] {
      var init := campaigns[..|campaigns| - 1];
      var p := CampaignsSpec(st, key, init, o);
      if k < |campaigns| - 1 {
        CampaignsLastWins(st, key, init, o, k);
      }
    }
  }

  // ---------------------------------------------------------------------------------------
  // parse_indicators

  lemma IndicatorReplyTouches(st: State, indId: Id, reply: Reply, typeName: string, objId: Id)
    ensures Touches(st, IndicatorReplySpec(st, indId, reply, typeName, objId).st, {indId})
  {
    if reply.Returned? && reply.res.success == Some(false) && reply.res.message.Some? {
      AppendExtends(st, Failure(Text(reply.res.message.value), typeName, objId));
    }
  }

  lemma {:induction false} IndicatorValuesTouches(st: State, indId: Id, t: string, values: seq<string>, typeName: string, objId: Id, o: Oracle)
    ensures Touches(st, IndicatorValuesSpec(st, indId, t, values, typeName, objId, o).st, {indId})
    decreases |values|
  {
    if values != [] {
      var init := values[..|values| - 1];
      var v := values[|values| - 1];
      var p := IndicatorValuesSpec(st, indId, t, init, typeName, objId, o);
      IndicatorValuesTouches(st, indId, t, init, typeName, objId, o);
      if !p.raised && RequestFor(IndicatorRule(t), v).Some? {
        IndicatorReplyTouches(p.st, indId, o.handle(RequestFor(IndicatorRule(t), v).value), typeName, objId);
        TouchesTrans(st, p.st, IndicatorValuesSpec(st, indId, t, values, typeName, objId, o).st, {indId}, {indId});
      }
    }
  }

  lemma IndicatorItemTouches(st: State, indId: Id, item: Props, objId: Id, o: Oracle)
    ensures Touches(st, IndicatorItemSpec(st, indId, item, objId, o), {indId})
  {
    match o.makeObject(item)
    case None => AppendExtends(st, Failure(ExceptionText, TypeName(item), objId));
    case Some(co) =>
      var p := IndicatorValuesSpec(st, indId, co.objectType, co.values, TypeName(item), objId, o);
      IndicatorValuesTouches(st, indId, co.objectType, co.values, TypeName(item), objId, o);
      if p.raised {
        AppendExtends(p.st, Failure(ExceptionText, TypeName(item), objId));
        TouchesTrans(st, p.st, IndicatorItemSpec(st, indId, item, objId, o), {indId}, {});
      }
  }

  lemma {:induction false} IndicatorObservablesTouches(st: State, indId: Id, list: seq<Observable>, o: Oracle)
    ensures Touches(st, IndicatorObservablesSpec(st, indId, list, o).st, {indId})
    decreases |list|
  {
    if list != [] {
      var init := list[..|list| - 1];
      var obs := list[|list| - 1];
      var w := IndicatorObservablesSpec(st, indId, init, o);
      IndicatorObservablesTouches(st, indId, init, o);
      if w.outcome == Walked && obs.obj.Some? && obs.obj.value.properties.Some? {
        IndicatorItemTouches(w.st, indId, obs.obj.value.properties.value, obs.obj.value.id, o);
        TouchesTrans(st, w.st, IndicatorObservablesSpec(st, indId, list, o).st, {indId}, {indId});
      }
    }
  }

  /** The ledger keys one indicator may write: its own id and the ids of its observables. */
  function IndicatorIds(ind: StixIndicator): set<Id>
  {
    {ind.id} + OuterIds(ind.observables)
  }

  /** A "Top-Level Object" indicator: after its observables are parsed, the entry recorded
      under the FIRST observable's id moves to the indicator's own id; nothing outside the
      indicator's id and its observables' ids changes. */
  lemma WrapperMovesFirstEntry(st: State, ind: StixIndicator, env: Env, o: Oracle)
    requires IsWrapper(ind) && ind.observables != []
    ensures var st1 := ObservablesSpec(st, ind.observables, env, o);
            var w := IndicatorSpec(st, ind, env, o);
            var first := ind.observables[0].id;
            w.outcome == Walked && w.st == st1.(imported := w.st.imported) &&
            (first in st1.imported ==>
               ind.id in w.st.imported && w.st.imported[ind.id] == st1.imported[first] &&
               (first != ind.id ==> first !in w.st.imported)) &&
            (first !in st1.imported ==> w.st.imported == st1.imported) &&
            Touches(st, w.st, IndicatorIds(ind))
  {
    var st1 := ObservablesSpec(st, ind.observables, env, o);
    ObservablesTouchOuterIds(st, ind.observables, env, o);
    var w := IndicatorSpec(st, ind, env, o);
    var first := ind.observables[0].id;
    assert first in OuterIds(ind.observables);
    forall k | k !in IndicatorIds(ind)
      ensures SameAt(st.imported, w.st.imported, k)
    {
      assert SameAt(st.imported, st1.imported, k);
    }
  }

  /** A "Top-Level Object" indicator without observables ends the run (IndexError). */
  lemma WrapperWithoutObservablesCrashes(st: State, ind: StixIndicator, env: Env, o: Oracle)
    requires IsWrapper(ind) && ind.observables == []
    ensures IndicatorSpec(st, ind, env, o) == Walk(st, WalkCrashed)
  {
  }

  lemma IndicatorTouches(st: State, ind: StixIndicator, env: Env, o: Oracle)
    ensures Touches(st, IndicatorSpec(st, ind, env, o).st, IndicatorIds(ind))
  {
    if IsWrapper(ind) {
      if ind.observables != [] {
        WrapperMovesFirstEntry(st, ind, env, o);
      } else {
        ObservablesTouchOuterIds(st, ind.observables, env, o);
      }
    } else if !IsCampaignMarker(ind) {
      IndicatorObservablesTouches(st, ind.id, ind.observables, o);
    }
  }

  /** The ledger keys a list of indicators may write. */
  function WalkIds(inds: seq<StixIndicator>): set<Id>
    decreases |inds|
  {
    if inds == [] then {} else WalkIds(inds[..|inds| - 1]) + IndicatorIds(inds[|inds| - 1])
  }

  /** parse_indicators writes the import ledger only under indicator ids and the ids of their
      observables, leaves the comment store alone, and only appends to the other ledgers. */
  lemma {:induction false} IndicatorsTouchWalkIds(st: State, inds: seq<StixIndicator>, env: Env, o: Oracle)
    ensures Touches(st, IndicatorsSpec(st, inds, env, o).st, WalkIds(inds))
    decreases |inds|
  {
    if inds != [] {
      var init := inds[..|inds| - 1];
      var ind := inds[|inds| - 1];
      IndicatorsTouchWalkIds(st, init, env, o);
      var w := IndicatorsSpec(st, init, env, o);
      if w.outcome == Walked {
        IndicatorTouches(w.st, ind, env, o);
        TouchesTrans(st, w.st, IndicatorsSpec(st, inds, env, o).st, WalkIds(init), IndicatorIds(ind));
      } else {
        TouchesWiden(st, w.st, WalkIds(init), WalkIds(inds));
      }
    }
  }

  /** A "MARTI Campaign" indicator reached by the walk ends it: the result is the state after
      the indicators before it, and the indicators after it are never looked at. */
  lemma MarkerEndsWalk(st: State, inds: seq<StixIndicator>, env: Env, o: Oracle, k: nat)
    requires k < |inds| && IsCampaignMarker(inds[k])
    requires IndicatorsSpec(st, inds[..k], env, o).outcome == Walked
    ensures IndicatorsSpec(st, inds, env, o) == Walk(IndicatorsSpec(st, inds[..k], env, o).st, CampaignMarkerSeen)
  {
    assert inds[..k + 1][..k] == inds[..k];
    IndicatorsStopAtMarker(st, inds, env, o, k + 1);
  }

  // ---------------------------------------------------------------------------------------
  // The ignored-result calls.

  lemma PerformedStep(effects: seq<Effect>, es: seq<Effect>, o: Oracle, k: nat)
    requires k < |es|
    ensures var p := Performed(effects, es[..k], o);
            Performed(effects, es[..k + 1], o) ==
              if p.1 then p else if o.callRaises(es[k]) then (p.0, true) else (p.0 + [es[k]], false)
  {
    assert es[..k + 1][..k] == es[..k];
  }

  /** Once a call has raised, the later calls are not made. */
  lemma {:induction false} PerformedStopAtRaise(effects: seq<Effect>, es: seq<Effect>, o: Oracle, k: nat)
    requires k <= |es| && Performed(effects, es[..k], o).1
    ensures Performed(effects, es, o) == Performed(effects, es[..k], o)
    decreases |es|
  {
    if k < |es| {
      var init := es[..|es| - 1];
      assert init[..k] == es[..k];
      PerformedStopAtRaise(effects, init, o, k);
    } else {
      assert es[..k] == es;
    }
  }

  /** The calls up to the first one that raises are recorded, in order, and no other; the
      sequence raises exactly when some call does. */
  lemma {:induction false} PerformedUpTo(effects: seq<Effect>, es: seq<Effect>, o: Oracle, k: nat)
    requires k <= |es| && (forall j :: 0 <= j < k ==> !o.callRaises(es[j])) && (k < |es| ==> o.callRaises(es[k]))
    ensures Performed(effects, es, o) == (effects + es[..k], k < |es|)
    decreases |es|
  {
    if es != [] {
      var n := |es|;
      var init := es[..n - 1];
      if k < n - 1 {
        PerformedUpTo(effects, init, o, k);
        assert init[..k] == es[..k];
      } else {
        PerformedUpTo(effects, init, o, n - 1);
        assert init[..n - 1] == init;
        if k == n {
          assert !o.callRaises(es[n - 1]);
          assert es[..k] == es && es == init + [es[n - 1]];
          assert effects + es == (effects + init) + [es[n - 1]];
        } else {
          assert es[..k] == init;
        }
      }
    } else {
      assert effects + es[..k] == effects;
    }
  }

  lemma {:induction false} PerformedExtends(effects: seq<Effect>, es: seq<Effect>, o: Oracle)
    ensures var r := Performed(effects, es, o); PrefixOf(effects, r.0) && |r.0| <= |effects| + |es|
    decreases |es|
  {
    if es != [] {
      var init := es[..|es| - 1];
      PerformedExtends(effects, init, o);
      var p := Performed(effects, init, o);
      assert (p.0 + [es[|es| - 1]])[..|effects|] == p.0[..|effects|];
    }
  }

  // ---------------------------------------------------------------------------------------
  // parse_comments is idempotent.

  function CommentOf(it: RelatedItem): StoredComment
  {
    StoredComment(it.description, it.timestamp)
  }

  /** The comment `c` is stored on entity `t`. */
  ghost predicate Stored(st: State, t: Entry, c: StoredComment)
  {
    c in Get(st.comments, t, [])
  }

  /** Only the comment store and the ignored calls change, and no stored comment disappears. */
  ghost predicate CommentsGrow(a: State, b: State)
  {
    b.imported == a.imported && b.failed == a.failed && b.relationships == a.relationships &&
    PrefixOf(a.effects, b.effects) && forall t, c :: Stored(a, t, c) ==> Stored(b, t, c)
  }

  /** Every comment item of a saved indicator is stored on the indicator's entity. */
  ghost predicate Covered(st: State, ind: StixIndicator)
  {
    WasSaved(st.imported, ind) ==>
      forall j :: 0 <= j < |ind.relatedIndicators| && IsCommentItem(ind.relatedIndicators[j]) ==>
        Stored(st, st.imported[ind.id], CommentOf(ind.relatedIndicators[j]))
  }

  /** Fetching the comments of a saved indicator's entity does not raise. */
  ghost predicate Fetches(st: State, ind: StixIndicator, o: Oracle)
  {
    WasSaved(st.imported, ind) ==> !o.commentsRaise(st.imported[ind.id])
  }

  lemma CommentsGrowTrans(a: State, b: State, c: State)
    requires CommentsGrow(a, b) && CommentsGrow(b, c)
    ensures CommentsGrow(a, c)
  {
    PrefixTrans(a.effects, b.effects, c.effects);
  }

  lemma CoveredKept(a: State, b: State, ind: StixIndicator)
    requires CommentsGrow(a, b) && Covered(a, ind)
    ensures Covered(b, ind)
  {
  }

  lemma {:induction false} CommentItemsStopAtRaise(st: State, target: Entry, existing: seq<StoredComment>, items: seq<RelatedItem>, o: Oracle, k: nat)
    requires k <= |items| && CommentItemsSpec(st, target, existing, items[..k], o).raised
    ensures CommentItemsSpec(st, target, existing, items, o) == CommentItemsSpec(st, target, existing, items[..k], o)
    decreases |items|
  {
    if k < |items| {
      var init := items[..|items| - 1];
      assert init[..k] == items[..k];
      CommentItemsStopAtRaise(st, target, existing, init, o, k);
    } else {
      assert items[..k] == items;
    }
  }

  lemma {:induction false} CommentsStopAtRaise(st: State, inds: seq<StixIndicator>, o: Oracle, k: nat)
    requires k <= |inds| && CommentsSpec(st, inds[..k], o).raised
    ensures CommentsSpec(st, inds, o) == CommentsSpec(st, inds[..k], o)
    decreases |inds|
  {
    if k < |inds| {
      var init := inds[..|inds| - 1];
      assert init[..k] == inds[..k];
      CommentsStopAtRaise(st, init, o, k);
    } else {
      assert inds[..k] == inds;
    }
  }

  lemma CommentItemStepGrows(p: Progress, target: Entry, existing: seq<StoredComment>, it: RelatedItem, o: Oracle)
    ensures var r := CommentItemStep(p, target, existing, it, o);
            CommentsGrow(p.st, r.st) && (p.raised ==> r == p) &&
            (!r.raised && IsCommentItem(it) ==> Stored(r.st, target, CommentOf(it)) || CommentOf(it) in existing)
  {
    var r := CommentItemStep(p, target, existing, it, o);
    if !r.raised && r != p {
      var st := p.st;
      assert Get(r.st.comments, target, []) == Get(st.comments, target, []) + [CommentOf(it)];
      assert r.st.effects[..|st.effects|] == st.effects;
      forall t, c | Stored(st, t, c)
        ensures Stored(r.st, t, c)
      {
        if t == target {
          assert c in Get(st.comments, target, []) + [CommentOf(it)];
        }
      }
    }
  }

  /** One indicator's comment items, checked against the comments fetched for it: unless a
      `comment_add` raised, every comment item is then stored on `target`, provided the
      fetched comments were. */
  lemma {:induction false} CommentItemsCover(st: State, target: Entry, existing: seq<StoredComment>, items: seq<RelatedItem>, o: Oracle)
    requires forall c :: c in existing ==> Stored(st, target, c)
    ensures var r := CommentItemsSpec(st, target, existing, items, o);
            CommentsGrow(st, r.st) &&
            (!r.raised ==> forall j :: 0 <= j < |items| && IsCommentItem(items[j]) ==> Stored(r.st, target, CommentOf(items[j])))
    decreases |items|
  {
    if items != [] {
      var init := items[..|items| - 1];
      var it := items[|items| - 1];
      CommentItemsCover(st, target, existing, init, o);
      var mid := CommentItemsSpec(st, target, existing, init, o);
      CommentItemStepGrows(mid, target, existing, it, o);
      var r := CommentItemsSpec(st, target, existing, items, o);
      CommentsGrowTrans(st, mid.st, r.st);
      if !r.raised {
        forall j | 0 <= j < |items| && IsCommentItem(items[j])
          ensures Stored(r.st, target, CommentOf(items[j]))
        {
          if j < |items| - 1 {
            assert items[j] == init[j];
            assert Stored(mid.st, target, CommentOf(init[j]));
          } else if CommentOf(it) in existing {
            assert Stored(st, target, CommentOf(it));
          }
        }
      }
    }
  }

  /** When every comment item is already among the fetched comments, nothing is added and
      nothing is called. */
  lemma {:induction false} CommentItemsNoop(st: State, target: Entry, existing: seq<StoredComment>, items: seq<RelatedItem>, o: Oracle)
    requires forall j :: 0 <= j < |items| && IsCommentItem(items[j]) ==> IsDuplicate(existing, items[j])
    ensures CommentItemsSpec(st, target, existing, items, o) == Progress(st, false)
    decreases |items|
  {
    if items != [] {
      var init := items[..|items| - 1];
      assert forall j :: 0 <= j < |init| ==> init[j] == items[j];
      CommentItemsNoop(st, target, existing, init, o);
    }
  }

  lemma IndicatorCommentsCover(st: State, ind: StixIndicator, o: Oracle)
    ensures var r := IndicatorCommentsSpec(st, ind, o);
            CommentsGrow(st, r.st) && (!r.raised ==> Covered(r.st, ind) && Fetches(r.st, ind, o))
  {
    if WasSaved(st.imported, ind) && !o.commentsRaise(st.imported[ind.id]) {
      var target := st.imported[ind.id];
      CommentItemsCover(st, target, Get(st.comments, target, []), ind.relatedIndicators, o);
    }
  }

  /** Unless the comment pass crashed, afterwards every comment item of every saved indicator
      is stored, every saved indicator's comments could be fetched, and the pass only added
      comments. */
  lemma {:induction false} CommentsCoverAll(st: State, inds: seq<StixIndicator>, o: Oracle)
    ensures var r := CommentsSpec(st, inds, o);
            CommentsGrow(st, r.st) &&
            (!r.raised ==> forall i :: 0 <= i < |inds| ==> Covered(r.st, inds[i]) && Fetches(r.st, inds[i], o))
    decreases |inds|
  {
    if inds != [] {
      var init := inds[..|inds| - 1];
      var ind := inds[|inds| - 1];
      CommentsCoverAll(st, init, o);
      var mid := CommentsSpec(st, init, o);
      var r := CommentsSpec(st, inds, o);
      if !mid.raised {
        IndicatorCommentsCover(mid.st, ind, o);
        CommentsGrowTrans(st, mid.st, r.st);
        if !r.raised {
          forall i | 0 <= i < |inds|
            ensures Covered(r.st, inds[i]) && Fetches(r.st, inds[i], o)
          {
            if i < |inds| - 1 {
              assert inds[i] == init[i];
              CoveredKept(mid.st, r.st, init[i]);
            }
          }
        }
      }
    }
  }

  /** When every comment item of every saved indicator is already stored and the fetches do
      not raise, the pass changes nothing. */
  lemma {:induction false} CommentsNoop(st: State, inds: seq<StixIndicator>, o: Oracle)
    requires forall i :: 0 <= i < |inds| ==> Covered(st, inds[i]) && Fetches(st, inds[i], o)
    ensures CommentsSpec(st, inds, o) == Progress(st, false)
    decreases |inds|
  {
    if inds != [] {
      var init := inds[..|inds| - 1];
      var ind := inds[|inds| - 1];
      assert forall i :: 0 <= i < |init| ==> init[i] == inds[i];
      CommentsNoop(st, init, o);
      assert Covered(st, ind) && Fetches(st, ind, o);
      if WasSaved(st.imported, ind) {
        var target := st.imported[ind.id];
        CommentItemsNoop(st, target, Get(st.comments, target, []), ind.relatedIndicators, o);
      }
    }
  }

  /** The comment pass is idempotent: re-running it on the result of a run that did not crash
      neither crashes nor adds any comment. */
  lemma CommentsIdempotent(st: State, inds: seq<StixIndicator>, o: Oracle)
    ensures var r := CommentsSpec(st, inds, o); !r.raised ==> CommentsSpec(r.st, inds, o) == r
  {
    var r := CommentsSpec(st, inds, o);
    CommentsCoverAll(st, inds, o);
    if !r.raised {
      CommentsNoop(r.st, inds, o);
    }
  }

  // ---------------------------------------------------------------------------------------
  // relate_objects

  /** A deferred relationship becomes an edge exactly when both of its endpoints were
      imported; the others are dropped without a trace. */
  lemma {:induction false} DeferredEdgesExact(imported: map<Id, Entry>, rels: seq<Relationship>)
    ensures forall k :: 0 <= k < |rels| && Resolvable(imported, rels[k]) ==>
              EdgeOf(imported, rels[k]) in DeferredEdges(imported, rels)
    ensures forall e :: e in DeferredEdges(imported, rels) ==>
              exists k :: 0 <= k < |rels| && Resolvable(imported, rels[k]) && e == EdgeOf(imported, rels[k])
    ensures |DeferredEdges(imported, rels)| <= |rels|
    decreases |rels|
  {
    if rels != [] {
      var init := rels[..|rels| - 1];
      DeferredEdgesExact(imported, init);
      assert forall k :: 0 <= k < |init| ==> init[k] == rels[k];
    }
  }

  /** With the Event present, every imported entity gets exactly the edge `EventEdgeFor`
      gives it (the hinted one, else "Related To"/"Unknown" unless it is the Event), and no
      other edge is made. */
  lemma {:induction false} EventEdgesExact(imported: map<Id, Entry>, rels: map<Id, EventRel>, evt: ObjRef, order: seq<Id>)
    requires forall id :: id in order ==> id in imported
    ensures forall k :: 0 <= k < |order| && EventEdgeFor(imported, rels, evt, order[k]).Some? ==>
              EventEdgeFor(imported, rels, evt, order[k]).value in EventEdges(imported, rels, evt, order)
    ensures forall e :: e in EventEdges(imported, rels, evt, order) ==>
              e.from == evt && exists k :: 0 <= k < |order| && EventEdgeFor(imported, rels, evt, order[k]) == Some(e)
    decreases |order|
  {
    if order != [] {
      var init := order[..|order| - 1];
      EventEdgesExact(imported, rels, evt, init);
      assert forall k :: 0 <= k < |init| ==> init[k] == order[k];
    }
  }

  /** The same over a complete iteration order of the ledger: hinted entities get their hint,
      every other non-Event entity a default edge, the Event entry none. */
  lemma EventEdgesForLedger(imported: map<Id, Entry>, rels: map<Id, EventRel>, evt: ObjRef, order: seq<Id>)
    requires IsKeyOrder(order, imported)
    ensures forall id :: id in imported && id in rels ==>
              Edge(evt, imported[id].obj, rels[id].relType, rels[id].confidence) in EventEdges(imported, rels, evt, order)
    ensures forall id :: id in imported && id !in rels && imported[id].kind != Event ==>
              Edge(evt, imported[id].obj, RelatedTo, UnknownConfidence) in EventEdges(imported, rels, evt, order)
  {
    EventEdgesExact(imported, rels, evt, order);
    forall id | id in imported
      ensures EventEdgeFor(imported, rels, evt, id).Some? ==>
                EventEdgeFor(imported, rels, evt, id).value in EventEdges(imported, rels, evt, order)
    {
      var k :| 0 <= k < |order| && order[k] == id;
    }
  }

  /** Every imported object is saved, once per ledger key. */
  lemma SavesEveryEntry(imported: map<Id, Entry>, order: seq<Id>)
    requires IsKeyOrder(order, imported)
    ensures forall id :: id in imported ==> imported[id].obj in SavedObjects(imported, order)
  {
    forall id | id in imported
      ensures imported[id].obj in SavedObjects(imported, order)
    {
      var k :| 0 <= k < |order| && order[k] == id;
      assert SavedObjects(imported, order)[k] == imported[id].obj;
    }
  }

  // ---------------------------------------------------------------------------------------
  // parse_threat_actors: the shared tag list

  /** Collecting tags over `a + b` is collecting over `a`, then over `b`. */
  lemma {:induction false} ActorTagListAppend(a: seq<string>, b: seq<string>, o: Oracle)
    ensures ActorTagList(a + b, o) == ActorTagList(a, o) + ActorTagList(b, o)
    decreases |b|
  {
    if b == [] {
      assert a + b == a;
    } else {
      var init := b[..|b| - 1];
      assert (a + b)[..|a + b| - 1] == a + init;
      assert (a + b)[|a + b| - 1] == b[|b| - 1];
      ActorTagListAppend(a, init, o);
    }
  }

  /** Because the four tag lists are one list, the n-th `update_actor_tags` call receives the
      mapped tags of the first n value lists together: the motivation call carries the
      sophistication tags too, and so on. */
  lemma ActorTagsCumulative(actor: ObjRef, ta: ActorNode, o: Oracle)
    requires ta.ThreatActor?
    ensures var s := ta.sophistications;
            var m := s + ta.motivations;
            var t := m + ta.types;
            var i := t + ta.intendedEffects;
            ActorTagEffects(actor, ta, o) ==
              [ActorTags(actor, "ActorSophistication", ActorTagList(s, o)),
               ActorTags(actor, "ActorMotivation", ActorTagList(m, o)),
               ActorTags(actor, "ActorThreatType", ActorTagList(t, o)),
               ActorTags(actor, "ActorIntendedEffect", ActorTagList(i, o))]
  {
    var s := ta.sophistications;
    var m := s + ta.motivations;
    var t := m + ta.types;
    ActorTagListAppend(s, ta.motivations, o);
    ActorTagListAppend(m, ta.types, o);
    ActorTagListAppend(t, ta.intendedEffects, o);
  }

  /** The ids of the threat actors in a list. */
  function ActorIds(actors: seq<ActorNode>): set<Id>
    decreases |actors|
  {
    if actors == [] then {}
    else
      var a := actors[|actors| - 1];
      ActorIds(actors[..|actors| - 1]) + (if a.ThreatActor? then {a.id} else {})
  }

  lemma ActorTouches(st: State, ta: ActorNode, o: Oracle)
    ensures Touches(st, ActorSpec(st, ta, o), if ta.ThreatActor? then {ta.id} else {})
  {
    if ta.ThreatActor? {
      var r := ActorSpec(st, ta, o);
      var reply := o.handle(AddNewActor(ta.title, ta.description));
      if reply.Returned? && reply.res.success == Some(true) && reply.res.id.Some? {
        PerformedExtends(st.effects, ActorTagEffects(reply.res.id.value, ta, o), o);
      }
      if r.failed != st.failed {
        assert r.failed[..|st.failed|] == st.failed;
      }
    }
  }

  /** parse_threat_actors writes the import ledger only under threat-actor ids. */
  lemma {:induction false} ActorsTouchActorIds(st: State, actors: seq<ActorNode>, o: Oracle)
    ensures Touches(st, ActorsSpec(st, actors, o), ActorIds(actors))
    decreases |actors|
  {
    if actors != [] {
      var init := actors[..|actors| - 1];
      var a := actors[|actors| - 1];
      ActorsTouchActorIds(st, init, o);
      ActorTouches(ActorsSpec(st, init, o), a, o);
      TouchesTrans(st, ActorsSpec(st, init, o), ActorsSpec(st, actors, o), ActorIds(init),
                   if a.ThreatActor? then {a.id} else {});
    }
  }

  // ---------------------------------------------------------------------------------------
  // parse_stix

  lemma EventExtends(r: Run, pkg: Package, env: Env, now: string, o: Oracle)
    ensures Touches(r.st, EventSpec(r, pkg, env, now, o).0.st, {pkg.id})
  {
    var r1 := EventSpec(r, pkg, env, now, o).0;
    if r1.st.failed != r.st.failed {
      assert r1.st.failed[..|r.st.failed|] == r.st.failed;
    }
  }

  lemma IndicatorPhaseExtends(st: State, pkg: Package, env: Env, o: Oracle)
    ensures Extends(st, IndicatorPhase(st, pkg, env, o).0)
  {
    var w := IndicatorsSpec(st, pkg.indicators, env, o);
    IndicatorsTouchWalkIds(st, pkg.indicators, env, o);
    if w.outcome != WalkCrashed {
      var c := if w.outcome == CampaignMarkerSeen && pkg.indicators != []
               then CampaignsSpec(w.st, pkg.indicators[0].id, pkg.campaigns, o)
               else Progress(w.st, false);
      if w.outcome == CampaignMarkerSeen && pkg.indicators != [] {
        CampaignsWriteOnlyKey(w.st, pkg.indicators[0].id, pkg.campaigns, o);
      }
      assert Extends(w.st, c.st);
      ExtendsTrans(st, w.st, c.st);
      if !c.raised {
        CommentsCoverAll(c.st, pkg.indicators, o);
        ExtendsTrans(st, c.st, CommentsSpec(c.st, pkg.indicators, o).st);
      }
    }
  }

  lemma WalkPhasesExtends(st: State, pkg: Package, env: Env, o: Oracle)
    ensures Extends(st, WalkPhases(st, pkg, env, o).0)
  {
    var (s1, crashed) := if pkg.indicators != [] then IndicatorPhase(st, pkg, env, o) else (st, false);
    if pkg.indicators != [] {
      IndicatorPhaseExtends(st, pkg, env, o);
    }
    if !crashed {
      var s2 := if pkg.observables != [] then ObservablesSpec(s1, pkg.observables, env, o) else s1;
      if pkg.observables != [] {
        ObservablesTouchOuterIds(s1, pkg.observables, env, o);
      }
      ExtendsTrans(st, s1, s2);
      if pkg.threatActors != [] {
        ActorsTouchActorIds(s2, pkg.threatActors, o);
        ExtendsTrans(st, s2, ActorsSpec(s2, pkg.threatActors, o));
      }
    }
  }

  /** Over a whole run the failure ledger, the deferred relationships and the ignored calls
      are only appended to: nothing recorded earlier is lost or reordered. */
  lemma RunOnlyAppends(r0: Run, pkg: Package, reference: string, makeEvent: bool, requested: string,
                       now: string, analyst: string, acquisitionMethod: string, o: Oracle)
    ensures Extends(r0.st, RunSpec(r0, pkg, reference, makeEvent, requested, now, analyst, acquisitionMethod, o).0.st)
  {
    var r1 := Noted(r0, pkg);
    var ref := StixReference(reference, HeaderSource(pkg));
    match ResolveSource(requested, r1.informationSource, o)
    case None =>
    case Some(name) =>
      var env := Env(pkg.id, name, acquisitionMethod, ref, analyst);
      var r2 := Started(r1, name, ref, analyst, acquisitionMethod);
      var ev := MaybeEvent(r2, makeEvent, pkg, env, now, o);
      if makeEvent {
        EventExtends(r2, pkg, env, now, o);
      }
      if !ev.1 {
        WalkPhasesExtends(ev.0.st, pkg, env, o);
        ExtendsTrans(r0.st, ev.0.st, Finished(ev.0, pkg, env, o).0.st);
      }
  }

  /** Without a known source the run stops with "No source to attribute data to.": the only
      change is the noted information source. */
  lemma NoSourceStopsRun(r0: Run, pkg: Package, reference: string, makeEvent: bool, requested: string,
                         now: string, analyst: string, acquisitionMethod: string, o: Oracle)
    ensures var (r, outcome) := RunSpec(r0, pkg, reference, makeEvent, requested, now, analyst, acquisitionMethod, o);
            (outcome.NoSource? <==> !o.sourceExists(requested) && (Noted(r0, pkg).informationSource.None? ||
                                                                 !o.sourceExists(Noted(r0, pkg).informationSource.value))) &&
            (outcome.NoSource? ==> outcome.message == NoSourceMessage && r == r0.(informationSource := r.informationSource))
  {
  }

  /** A header identity without a name forgets the information source noted by an earlier
      document: the run falls back to no source at all, whatever was noted before. */
  lemma NamelessIdentityForgetsSource(r0: Run, pkg: Package, reference: string, makeEvent: bool, requested: string,
                                      now: string, analyst: string, acquisitionMethod: string, o: Oracle)
    requires HeaderIdentity(pkg) == Some(Identity(None)) && !o.sourceExists(requested)
    ensures var (r, outcome) := RunSpec(r0, pkg, reference, makeEvent, requested, now, analyst, acquisitionMethod, o);
            outcome == NoSource(NoSourceMessage) && r == r0.(informationSource := None)
  {
  }

  /** An Address everywhere except in the IP step: when `make_crits_object` calls it an
      Address, the fallback branch records nothing and appends no failure, so the component
      leaves only what the IP step left. */
  lemma AddressOnlyThroughIpStep(st: State, oid: Id, item: Props, env: Env, o: Oracle)
    requires item.Address? && o.makeObject(item).Some? && o.makeObject(item).value.objectType == "Address"
    ensures BodySpec(st, oid, item, env, o) == IpStage(st, oid, item, o)
    ensures item.category !in IpCategories ==> BodySpec(st, oid, item, env, o) == Progress(st, false)
  {
  }

  /** An email's attachments become deferred "Contains" edges from the OUTER observable only
      when the reply's `status` is true; nothing else ever adds deferred relationships for it. */
  lemma EmailDefersOnlyOnStatus(st: State, oid: Id, item: Props, env: Env, o: Oracle)
    requires item.EmailMessage?
    ensures var reply := o.handle(HandleEmailFields(EmailFields(item, env)));
            var r := EmailSpec(st, oid, item, env, o);
            (r.st.relationships != st.relationships ==> reply.Returned? && reply.res.status == Some(true)) &&
            (reply.Returned? && reply.res.status == Some(true) && !r.raised ==>
               r.st.relationships[..|st.relationships|] == st.relationships &&
               |r.st.relationships| == |st.relationships| + |item.attachments| &&
               forall k :: 0 <= k < |item.attachments| ==>
                 r.st.relationships[|st.relationships| + k] == Relationship(oid, "Contains", item.attachments[k], "High"))
  {
    var reply := o.handle(HandleEmailFields(EmailFields(item, env)));
    var r := EmailSpec(st, oid, item, env, o);
    if reply.Returned? && reply.res.status == Some(true) && !r.raised {
      var edges := ContainsEdges(oid, item.attachments);
      assert r.st.relationships == st.relationships + edges;
    }
  }
}
