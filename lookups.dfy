/** The engine's pure lookups: `has_network_artifact`, `get_marti_type`, the ordered
    observable classification chain of `parse_observables`, the related-artifact payload
    choice, the email field set and the actor tag list. */
module Lookups {
  import opened Common
  import opened Stix

  // ---------------------------------------------------------------------------------------
  // has_network_artifact

  predicate IsNetworkArtifact(r: Related)
  {
    r.RelatedArtifact? && r.artifactType == NetworkTraffic
  }

  /** `has_network_artifact`: some related object is an Artifact of network-traffic type. */
  function HasNetworkArtifact(related: seq<Related>): (r: bool)
    ensures r <==> exists i :: 0 <= i < |related| && IsNetworkArtifact(related[i])
  {
    if related == [] then false
    else IsNetworkArtifact(related[0]) || HasNetworkArtifact(related[1..])
  }

  // ---------------------------------------------------------------------------------------
  // get_marti_type

  /** The kind a single STIX indicator-type term stands for, if it is one of the five terms. */
  function MartiKind(term: string): Option<Kind>
  {
    if term == "File Hash Watchlist" then Some(Sample)
    else if term == "Malicious E-mail" then Some(Email)
    else if term == "Domain Watchlist" then Some(Domain)
    else if term == "IP Watchlist" then Some(IP)
    else if term == "Anonymization" then Some(Campaign)
    else None
  }

  /** `get_marti_type`: the kind of the FIRST recognised term; None when no term is recognised. */
  function MartiType(terms: seq<string>): (r: Option<Kind>)
    ensures r.None? <==> forall i :: 0 <= i < |terms| ==> MartiKind(terms[i]).None?
    ensures r.Some? ==> exists i :: 0 <= i < |terms| && MartiKind(terms[i]) == r &&
                                    forall j :: 0 <= j < i ==> MartiKind(terms[j]).None?
  {
    if terms == [] then None
    else if MartiKind(terms[0]).Some? then MartiKind(terms[0])
    else
      var r := MartiType(terms[1..]);
      assert forall i :: 1 <= i < |terms| ==> terms[i] == terms[1..][i - 1];
      r
  }

  // ---------------------------------------------------------------------------------------
  // The classification chain of parse_observables (after the IP step).

  datatype Branch =
    | DomainBranch | RawDataBranch | CertificateBranch | PcapBranch | SampleBranch | EmailBranch
    | IndicatorBranch

  /** A File whose FIRST custom property is `crits_type` with value "Certificate". */
  predicate IsCertificateFile(p: Props)
  {
    p.File? && |p.customProperties| > 0 &&
    p.customProperties[0].name == "crits_type" && p.customProperties[0].value == "Certificate"
  }

  /** The isinstance/elif chain: DomainName, Artifact, certificate File, File with a network
      artifact, other File, EmailMessage, and everything else (Address included). */
  function Classify(p: Props): (b: Branch)
    ensures b == DomainBranch <==> p.DomainName?
    ensures b == RawDataBranch <==> p.Artifact?
    ensures b == CertificateBranch <==> IsCertificateFile(p)
    ensures b == PcapBranch <==> p.File? && !IsCertificateFile(p) && HasNetworkArtifact(p.related)
    ensures b == SampleBranch <==> p.File? && !IsCertificateFile(p) && !HasNetworkArtifact(p.related)
    ensures b == EmailBranch <==> p.EmailMessage?
    ensures b == IndicatorBranch <==> p.Address? || p.Other?
  {
    match p
    case DomainName(_) => DomainBranch
    case Artifact(_, _) => RawDataBranch
    case File(_, _, _, related, _) =>
      if IsCertificateFile(p) then CertificateBranch
      else if HasNetworkArtifact(related) then PcapBranch
      else SampleBranch
    case EmailMessage(_, _, _, _, _) => EmailBranch
    case _ => IndicatorBranch
  }

  /** The ledger kind each branch records. */
  function BranchKind(b: Branch): Kind
  {
    match b
    case DomainBranch => Domain
    case RawDataBranch => RawData
    case CertificateBranch => Certificate
    case PcapBranch => PCAP
    case SampleBranch => Sample
    case EmailBranch => Email
    case IndicatorBranch => Indicator
  }

  /** `type(item).__name__`. */
  function TypeName(p: Props): string
  {
    match p
    case Address(_, _) => "Address"
    case DomainName(_) => "DomainName"
    case Artifact(_, _) => "Artifact"
    case File(_, _, _, _, _) => "File"
    case EmailMessage(_, _, _, _, _) => "EmailMessage"
    case Other(name, _) => name
  }

  // ---------------------------------------------------------------------------------------
  // Payload of a File: the data of the LAST related Artifact the filter admits.

  datatype ArtifactFilter = AnyArtifact | OfType(t: ArtifactType)

  predicate Admits(f: ArtifactFilter, r: Related)
  {
    r.RelatedArtifact? && (f.AnyArtifact? || r.artifactType == f.t)
  }

  function LastArtifactData(related: seq<Related>, f: ArtifactFilter): (r: Option<Bytes>)
    ensures r.None? <==> forall i :: 0 <= i < |related| ==> !Admits(f, related[i])
    ensures r.Some? ==> exists i :: 0 <= i < |related| && Admits(f, related[i]) &&
                          related[i].data == r.value &&
                          forall j :: i < j < |related| ==> !Admits(f, related[j])
  {
    if related == [] then None
    else if Admits(f, related[|related| - 1]) then Some(related[|related| - 1].data)
    else LastArtifactData(related[..|related| - 1], f)
  }

  // ---------------------------------------------------------------------------------------
  // The email field set handed to handle_email_fields.

  function HeaderFields(h: EmailHeader): (m: map<string, EmailField>)
    ensures "to" in m <==> h.to != []
    ensures "cc" in m <==> h.cc != []
    ensures "message_id" in m && m["message_id"] == FieldText(h.messageId)
    ensures "from_address" in m && m["from_address"] == FieldText(h.from)
    ensures "source" !in m && "source_reference" !in m && "raw_body" !in m
  {
    var base := map[
      "message_id" := FieldText(h.messageId), "subject" := FieldText(h.subject),
      "sender" := FieldText(h.sender), "reply_to" := FieldText(h.replyTo),
      "x_originating_ip" := FieldText(h.xOriginatingIp), "x_mailer" := FieldText(h.xMailer),
      "boundary" := FieldText(h.boundary), "from_address" := FieldText(h.from),
      "date" := FieldText(h.date)];
    var withTo := if h.to != [] then base["to" := FieldList(h.to)] else base;
    if h.cc != [] then withTo["cc" := FieldList(h.cc)] else withTo
  }

  /** The fields every EmailMessage contributes: source, method, reference, raw body, raw
      header and server. */
  function MessageFields(p: Props, env: Env): (m: map<string, EmailField>)
    requires p.EmailMessage?
    ensures "source" in m && m["source"] == FieldText(env.sourceName)
    ensures "source_reference" in m && m["source_reference"] == FieldText(env.reference)
    ensures "raw_body" in m && m["raw_body"] == FieldText(p.rawBody)
    ensures "message_id" !in m && "to" !in m
  {
    map["source" := FieldText(env.sourceName), "source_method" := FieldText(env.acquisitionMethod),
        "source_reference" := FieldText(env.reference), "raw_body" := FieldText(p.rawBody),
        "raw_header" := FieldText(p.rawHeader), "helo" := FieldText(p.emailServer)]
  }

  /** The flattened field set of an EmailMessage: the message's own fields always, the
      header's fields only when it has a header. */
  function EmailFields(p: Props, env: Env): (m: map<string, EmailField>)
    requires p.EmailMessage?
    ensures "source" in m && m["source"] == FieldText(env.sourceName)
    ensures "source_reference" in m && m["source_reference"] == FieldText(env.reference)
    ensures "raw_body" in m && m["raw_body"] == FieldText(p.rawBody)
    ensures "message_id" in m <==> p.header.Some?
    ensures "to" in m <==> p.header.Some? && p.header.value.to != []
  {
    match p.header
    case None => MessageFields(p, env)
    case Some(h) => MessageFields(p, env) + HeaderFields(h)
  }

  // ---------------------------------------------------------------------------------------
  // Actor tags: the mapped values that get_crits_actor_tags recognises, in order.

  function ActorTagList(values: seq<string>, o: Oracle): (tags: seq<string>)
    ensures |tags| <= |values|
    ensures forall t :: t in tags ==> t != "" && exists v :: v in values && o.actorTag(v) == t
    ensures forall i :: 0 <= i < |values| && o.actorTag(values[i]) != "" ==> o.actorTag(values[i]) in tags
  {
    if values == [] then []
    else
      var init := values[..|values| - 1];
      var rest := ActorTagList(init, o);
      var t := o.actorTag(values[|values| - 1]);
      assert forall i :: 0 <= i < |init| ==> init[i] == values[i];
      if t != "" then rest + [t] else rest
  }

  /** The tags keep the order of their values: one more value adds its tag, if it has one, at
      the end. */
  lemma ActorTagListSnoc(values: seq<string>, v: string, o: Oracle)
    ensures ActorTagList(values + [v], o) ==
            ActorTagList(values, o) + (if o.actorTag(v) != "" then [o.actorTag(v)] else [])
  {
    assert (values + [v])[..|values|] == values;
  }
}
