# STIX import engine — a Dafny model

This project models the STIX import engine of the TAXII service: the class `STIXParser`,
which walks a parsed STIX package and turns its nodes into knowledge-base entities. The
model covers:

- resolving the source the data is attributed to;
- the optional Event;
- the indicator walk, including "Top-Level Object" wrappers and the "MARTI Campaign" marker;
- the campaign pass;
- the observable walk, with its ordered classification chain (IP, Domain, RawData,
  Certificate, PCAP, Sample, Email, Indicator);
- the threat-actor pass;
- the comment pass with its duplicate check;
- the relationship stitcher `relate_objects`.

What `parse_stix` leaves behind is the same set of ledgers as in the source:

- the import ledger (`imported`, document id ↦ kind and entity);
- the failure ledger (`failed`);
- the deferred relationships;
- the Event relation hints.

The model is in five modules, one file each, plus a shared `Common` module:

- `Stix` (`stix.dfy`): the values. It holds the parsed document graph, the requests the
  engine sends to persistence handlers, their replies, and the state of one run. Every
  collaborator the engine cannot see is one field of an `Oracle` datatype: the persistence
  handlers, the vocabulary lookups, `make_crits_object`, UTF-8 decoding and
  `does_source_exist`. So are two ways a call can raise: `callRaises` for each call whose
  result is ignored (`update_actor_tags`, `parse_filenames`, which calls
  `modify_sample_filenames`, and `comment_add`), and `commentsRaise` for `get_comments`.
- `Lookups` (`lookups.dfy`): the pure helpers. These are `has_network_artifact`,
  `get_marti_type`, the classification chain, the choice of related-artifact payload, the
  email field set and the actor tag list.
- `Passes` (`passes.dfy`): each pass as a pure state transformer, with a left fold for every
  loop. An exception caught by a per-node `try` shows up as a `raised` flag. An uncaught one
  ends the run: the walk outcome `WalkCrashed`, and the run outcome `RunCrashed`.
- `Parser` (`parser.dfy`): the class `STIXParser`. Its fields are the object's attributes,
  and the methods update them in place with loops. Every method is proved equal to its
  pass in `Passes`.
- `Properties` (`properties.dfy`): the lemmas about those passes.

Behaviours of the code worth noting:

- An Address is not excluded from the fallback Indicator branch by its class. At
  `taxii_service/parsers.py:609` a new `if` starts, not an `elif`, so an Address reaches the
  fallback branch. It is skipped there only because `make_crits_object` reports the type
  `'Address'` (`taxii_service/parsers.py:726`).
- On a multi-valued node, the ledger keeps the entry of the last value that SUCCEEDED, not
  the last value processed. A failing value leaves the earlier entry in place.
- In `parse_indicators`, an observable without properties does not give a failure record.
  It ends the run, because the code reads an undefined name (`taxii_service/parsers.py:530`).
- The "MARTI Campaign" marker ends the indicator walk; later indicators are not walked. Every
  campaign is written under the id of the FIRST indicator, so the last campaign with an id
  wins.
- The comment duplicate check compares the stored text and the item's description exactly,
  and the edit date and the item's timestamp exactly. No other normalisation is done.
- The four threat-actor tag lists are one list (`taxii_service/parsers.py:461`). So each
  `update_actor_tags` call receives every tag collected so far.
- `parse_comments` has no `try`: an exception from `get_comments` or `comment_add` ends the
  run. An exception from `update_actor_tags` is caught by the actor's `try` and gives one
  failure; the actor is then not recorded.
- An identity without a name still replaces the noted information source
  (`taxii_service/parsers.py:123-124`). A parser reused for a second document therefore
  forgets the first document's source.

## Model

| member | source | states |
|---|---|---|
| Common.Strip | taxii_service/parsers.py:601 | Python 2.7 `strip()`: the result is a slice of the input with only whitespace around it, begins and ends with a non-whitespace character, and is the input itself when the input has no whitespace; the whitespace is the byte-string set for `str(value).strip()` and the unicode set for `value.strip()` (`taxii_service/parsers.py:539`) |
| Lookups.HasNetworkArtifact | taxii_service/parsers.py:765-778 | true exactly when some related object is an Artifact of network-traffic type; an empty list gives false |
| Lookups.MartiType | taxii_service/parsers.py:375-388 | the kind named by the FIRST recognised indicator-type term; None exactly when no term is recognised |
| Lookups.Classify | taxii_service/parsers.py:609-723 | the elif chain in its exact order: DomainName, Artifact, a File whose first custom property marks a Certificate, another File with a network artifact, any other File, EmailMessage, then everything else (Address included); one iff per branch |
| Lookups.LastArtifactData | taxii_service/parsers.py:644-676 | the payload is the data of the LAST related Artifact the filter admits; None exactly when the filter admits none |
| Lookups.HeaderFields | taxii_service/parsers.py:696-709 | `to` and `cc` are present exactly when their lists are non-empty; message id and from-address are always present; the header never sets the source or body keys |
| Lookups.MessageFields | taxii_service/parsers.py:689-695 | source, source reference and raw body come from the run and the message |
| Lookups.EmailFields | taxii_service/parsers.py:689-709 | the base fields are always present; `message_id` is present exactly when the message has a header; `to` exactly when the header has recipients |
| Lookups.ActorTagList | taxii_service/parsers.py:462-465 | the tags are non-empty mapped values of the inputs, at most one per input, and every input with a non-empty mapped value contributes its tag |
| Lookups.ActorTagListSnoc | taxii_service/parsers.py:462-465 | the tags keep the order of their values: one more value appends its tag, or nothing when it has none |
| Passes.ContainsEdges | taxii_service/parsers.py:717-722 | one "Contains"/"High" relationship per attachment, in attachment order, from the given observable id |
| Passes.Rekey | taxii_service/parsers.py:520-522 | pop-and-reinsert: the entry under the embedded id moves to the wrapper id and the embedded id disappears; without that entry nothing changes; no other key changes |
| Passes.SavedObjects | taxii_service/parsers.py:819-820 | one save per ledger key in iteration order, each saving that key's entity |
| Passes.StixReference | taxii_service/parsers.py:123-132 | with a non-empty header source X: `"STIX Source: X"` when the reference is empty, else `reference + ", STIX Source: X"`; otherwise the reference is unchanged |
| Passes.ResolveSource | taxii_service/parsers.py:133-138 | a known requested source wins; else a known header source; None exactly when neither is known |
| Passes.HintsMap | taxii_service/parsers.py:178-182 | the hint map has exactly the hinted ids as keys |
| Passes.HintsMapValues | taxii_service/parsers.py:178-182 | each hinted id maps to the relation type and confidence of the LAST hint naming it |
| Passes.HintsMapLast | taxii_service/parsers.py:178-182 | the same for one hint that no later hint overrides |
| Parser.STIXParser.constructor | taxii_service/parsers.py:67-97 | empty ledgers, no Event, no source and no reference yet; analyst and method kept |
| Parser.STIXParser.ParseRes | taxii_service/parsers.py:747-763 | `success` decides, and `status` only when `success` is absent. On success exactly `imported[oid]` is written. On failure the import ledger is unchanged and exactly one failure is appended, with text reason > message > "Failed for unknown reason.". A success without an object raises and changes nothing |
| Parser.STIXParser.ParseReply | taxii_service/parsers.py:604-608 | a handler call followed by `parse_res`; a raising handler changes nothing |
| Parser.STIXParser.ParseValues | taxii_service/parsers.py:600-615 | the per-value loops (IP, Domain) equal the fold of `parse_res` over the values, stopping at the first exception |
| Parser.STIXParser.LastArtifact | taxii_service/parsers.py:644-676 | the payload loop returns the last admitted artifact's data; None exactly when none is admitted |
| Parser.STIXParser.DeferAttachments | taxii_service/parsers.py:717-722 | appends exactly the attachments' "Contains" relationships, in order |
| Parser.STIXParser.ParseSample | taxii_service/parsers.py:668-685 | the Sample branch: `handle_file`, then `parse_res`. With extracted features, the alternate filenames go on the reply's object: a reply without an object raises, and a raising `parse_filenames` call raises and records no call |
| Parser.STIXParser.ParseEmail | taxii_service/parsers.py:686-722 | the Email branch: the flattened field set, `parse_res`, and the attachments deferred only on a true `status` |
| Parser.STIXParser.ParseItem | taxii_service/parsers.py:593-741 | the IP step, then the classification chain, every branch writing under the outer observable's id |
| Parser.STIXParser.ParseComponent | taxii_service/parsers.py:585-745 | a component without object or properties appends the fixed failure under the component's id; an exception appends one failure named after the properties |
| Parser.STIXParser.ParseObservables | taxii_service/parsers.py:568-745 | the nested loops over observables and their components equal the specification fold |
| Parser.STIXParser.RecordIndicatorReply | taxii_service/parsers.py:539-553 | `success` true with an object writes exactly the Indicator entry under the indicator id. `success` false with a message leaves the import ledger alone and appends exactly `(message, type name, object id)`. It raises exactly when the handler raises or `success`, the needed `object` or `message` is missing, and then nothing changes |
| Parser.STIXParser.ParseIndicatorItem | taxii_service/parsers.py:533-555 | the `try` block of one observable of an ordinary indicator: the values of `make_crits_object` in order, one failure on an exception |
| Parser.STIXParser.ParseIndicatorObservables | taxii_service/parsers.py:527-555 | an observable without properties ends the run; otherwise the try block per observable |
| Parser.STIXParser.ParseIndicators | taxii_service/parsers.py:505-555 | wrappers parse their observables and re-key the first one; the campaign marker stops the walk; the rest go value by value |
| Parser.STIXParser.ParseCampaigns | taxii_service/parsers.py:251-260 | each campaign with an id is written under the first indicator's id; a raising handler ends the run |
| Parser.STIXParser.CollectTags | taxii_service/parsers.py:462-465 | appends the mapped tags to the shared list and keeps what was there |
| Parser.STIXParser.ParseThreatActor | taxii_service/parsers.py:452-503 | a ThreatActor is added. On success its tags are updated four times and it is recorded as an Actor. On failure, or on any exception including one from a tag update, one failure with an empty id is appended and the actor is not recorded |
| Parser.STIXParser.TagActor | taxii_service/parsers.py:461-493 | the four `update_actor_tags` calls over one shared list, made in order until one raises; only the calls that returned are recorded |
| Parser.STIXParser.CallAll | taxii_service/parsers.py:466-493 | calls made in order: each returning call is recorded, and the first one that raises stops the rest |
| Parser.STIXParser.Call | taxii_service/parsers.py:466-469 | one call whose result is ignored: it raises exactly when the oracle says so, and only a returning call is recorded |
| Parser.STIXParser.ParseThreatActors | taxii_service/parsers.py:442-503 | the loop over the actor list equals the specification fold; other node types are skipped |
| Parser.STIXParser.ShouldSend | taxii_service/parsers.py:429-439 | `send` is false exactly when a fetched comment has the item's timestamp as edit date and the item's text |
| Parser.STIXParser.ParseComments | taxii_service/parsers.py:410-440 | the loop over the indicators equals the specification fold; the first exception from `get_comments` or `comment_add` ends the pass and the run |
| Parser.STIXParser.CommentIndicator | taxii_service/parsers.py:417-440 | a saved indicator's comments are fetched once; then every comment item that is not a duplicate of a fetched comment is added, until a call raises |
| Parser.STIXParser.LedgerOrder | taxii_service/parsers.py:795 | an iteration order of the ledger lists every key exactly once |
| Parser.STIXParser.RelateToEvent | taxii_service/parsers.py:793-805 | the hinted edge for a hinted entry; otherwise a "Related To"/"Unknown" edge, except for the Event itself |
| Parser.STIXParser.RelateDeferred | taxii_service/parsers.py:809-816 | a deferred relationship becomes an edge exactly when both endpoints are in the ledger |
| Parser.STIXParser.SaveImported | taxii_service/parsers.py:819-820 | every ledger entity is saved, in iteration order |
| Parser.STIXParser.RelateObjects | taxii_service/parsers.py:780-820 | the Event edges (only when there is an Event), then the deferred edges; the Event is saved, then every ledger entity |
| Parser.STIXParser.RecordEventRels | taxii_service/parsers.py:178-182 | the Event relation hints of the first incident are added to the hint map |
| Parser.STIXParser.CreateEvent | taxii_service/parsers.py:143-186 | the Event request uses the title, type and description defaults. On success the Event is recorded under the package id and the hints are kept. On failure one "STIX Event" failure is appended. A missing key ends the run |
| Parser.STIXParser.NoteInformationSource | taxii_service/parsers.py:122-132 | with a header identity, its name replaces the noted information source even when the name is absent; without one the noted source stays; the reference gains "STIX Source: name" only for a non-empty name |
| Parser.STIXParser.ChooseSource | taxii_service/parsers.py:133-138 | the source is chosen exactly when one can be resolved |
| Parser.STIXParser.ParseStix | taxii_service/parsers.py:99-211 | the whole run: source resolution, the fatal "No source to attribute data to.", the new source instance, the optional Event, then indicators, campaigns, comments, observables and threat actors in that order |
| Parser.STIXParser.Import | taxii_service/parsers.py:140-211 | the run after the source is settled |
| Parser.STIXParser.RunPasses | taxii_service/parsers.py:188-211 | the passes and their guards: indicators if any (campaigns only after the marker, then comments), observables if any, threat actors if any; a crash skips the later passes |
| Properties.ValuesStopAtRaise | taxii_service/parsers.py:592-745 | once a value raises, the remaining values change nothing (the exception leaves the loop) |
| Properties.IndicatorValuesStopAtRaise | taxii_service/parsers.py:533-555 | once a value raises, the remaining values of the indicator change nothing |
| Properties.IndicatorObservablesStopAtCrash | taxii_service/parsers.py:527-532 | once the run has crashed, later observables change nothing |
| Properties.IndicatorsStopAtMarker | taxii_service/parsers.py:514-525 | once the walk has stopped, later indicators change nothing |
| Properties.CampaignsStopAtRaise | taxii_service/parsers.py:253-258 | once a campaign call raises, later campaigns change nothing |
| Properties.CommentItemsStopAtRaise | taxii_service/parsers.py:421-440 | once a `comment_add` raises, later comment items change nothing |
| Properties.CommentsStopAtRaise | taxii_service/parsers.py:416-440 | once the comment pass has raised, later indicators change nothing |
| Properties.ReplyTouches | taxii_service/parsers.py:747-763 | `parse_res` changes the import ledger only at the observable id, and only appends failures |
| Properties.ValueStepTouches | taxii_service/parsers.py:600-608 | one value changes the ledger only at the observable id |
| Properties.ValuesTouches | taxii_service/parsers.py:600-615 | a whole value loop changes the ledger only at the observable id |
| Properties.SampleTouches | taxii_service/parsers.py:668-685 | the Sample branch writes only under the observable id |
| Properties.EmailTouches | taxii_service/parsers.py:686-722 | the Email branch writes only under the observable id |
| Properties.ChainTouches | taxii_service/parsers.py:609-741 | every branch of the chain writes only under the observable id |
| Properties.BodyTouches | taxii_service/parsers.py:593-741 | the IP step plus the chain write only under the observable id |
| Properties.ComponentTouches | taxii_service/parsers.py:585-745 | one component writes only under its OUTER observable's id; the other ledgers only grow |
| Properties.ComponentsTouches | taxii_service/parsers.py:580-591 | a composition's components all write under the outer id |
| Properties.OuterIds | taxii_service/parsers.py:578 | exactly the ids of the listed observables |
| Properties.ObservablesTouchOuterIds | taxii_service/parsers.py:568-745 | `parse_observables` changes the ledger only under outer observable ids and never the comment store; failures, relationships and ignored calls are only appended to |
| Properties.ValueStepKeepsRaised | taxii_service/parsers.py:592-745 | after an exception, a value step does nothing |
| Properties.ValueStepUnrecorded | taxii_service/parsers.py:747-763 | a value that records nothing leaves the ledger unchanged |
| Properties.ValuesLastSuccessWins | taxii_service/parsers.py:600-615 | among several values, the entry of the LAST successful value is the one kept; with no success the key is untouched |
| Properties.IndicatorValuesLastSuccessWins | taxii_service/parsers.py:537-553 | among an indicator's values, the Indicator entry of the LAST value whose reply had `success` true is the one kept; with no success the key is untouched |
| Properties.IndicatorValueStepRecorded | taxii_service/parsers.py:539-546 | a value whose reply succeeds with an object writes that object under the indicator id |
| Properties.IndicatorValueStepUnrecorded | taxii_service/parsers.py:539-553 | a value that records nothing and does not raise leaves the import ledger unchanged |
| Properties.CampaignsWriteOnlyKey | taxii_service/parsers.py:251-260 | the campaign pass changes only the entry under the first indicator's id |
| Properties.CampaignsLastWins | taxii_service/parsers.py:251-260 | the last campaign with an id is the one recorded |
| Properties.IndicatorReplyTouches | taxii_service/parsers.py:539-553 | an indicator reply writes only under the indicator id |
| Properties.IndicatorValuesTouches | taxii_service/parsers.py:537-553 | the value loop of an indicator writes only under the indicator id |
| Properties.IndicatorItemTouches | taxii_service/parsers.py:533-555 | one observable of an indicator writes only under the indicator id |
| Properties.IndicatorObservablesTouches | taxii_service/parsers.py:527-555 | an ordinary indicator writes only under its own id |
| Properties.WrapperMovesFirstEntry | taxii_service/parsers.py:518-523 | a Top-Level Object re-keys the first observable's entry under the indicator id; the walk goes on; only the wrapper's and its observables' ids change |
| Properties.WrapperWithoutObservablesCrashes | taxii_service/parsers.py:520 | a wrapper without observables ends the run (IndexError) |
| Properties.IndicatorTouches | taxii_service/parsers.py:514-555 | one indicator writes only under its own id and its observables' ids |
| Properties.IndicatorsTouchWalkIds | taxii_service/parsers.py:505-555 | the indicator walk writes only under indicator and observable ids |
| Properties.MarkerEndsWalk | taxii_service/parsers.py:524-525 | a MARTI Campaign marker reached by the walk ends it, and the indicators after it are not walked |
| Properties.CommentItemStepGrows | taxii_service/parsers.py:421-440 | one comment item keeps every stored comment and only appends calls; after an exception it does nothing; a comment item ends up stored unless it was already fetched or its `comment_add` raised |
| Properties.CommentItemsCover | taxii_service/parsers.py:421-440 | when no `comment_add` raised, every comment item of one indicator is stored on the entity afterwards |
| Properties.CommentItemsNoop | taxii_service/parsers.py:435-439 | if every comment item is a duplicate, nothing is sent |
| Properties.IndicatorCommentsCover | taxii_service/parsers.py:416-440 | without an exception, a saved indicator's comment items are all stored afterwards and its comments can be fetched |
| Properties.CommentsCoverAll | taxii_service/parsers.py:410-440 | the pass only adds comments and calls; without an exception, every saved indicator's comment items are stored afterwards |
| Properties.CommentsNoop | taxii_service/parsers.py:410-440 | when every comment is already stored and fetchable, the pass changes nothing and raises nothing |
| Properties.CommentsIdempotent | taxii_service/parsers.py:410-440 | after a pass without an exception, a second pass changes nothing |
| Properties.DeferredEdgesExact | taxii_service/parsers.py:809-816 | deferred edges are made exactly for the relationships with both endpoints in the ledger, and no more of them than there are relationships |
| Properties.EventEdgesExact | taxii_service/parsers.py:793-805 | every edge from the Event comes from one ledger key, and every key that yields an edge has it |
| Properties.EventEdgesForLedger | taxii_service/parsers.py:793-805 | every hinted ledger entry gets its hinted edge, and every unhinted non-Event entry gets a "Related To"/"Unknown" edge |
| Properties.SavesEveryEntry | taxii_service/parsers.py:819-820 | every ledger entity is saved |
| Properties.ActorTagListAppend | taxii_service/parsers.py:461-489 | collecting tags over two value lists is collecting over each, concatenated |
| Properties.ActorTagsCumulative | taxii_service/parsers.py:461-493 | the n-th tag update receives the tags of the first n value lists together |
| Properties.PerformedUpTo | taxii_service/parsers.py:466-493 | the calls before the first one that raises are recorded in order and no others, and the sequence raises exactly when some call does |
| Properties.PerformedStopAtRaise | taxii_service/parsers.py:466-493 | once a call has raised, the later calls are not made |
| Properties.PerformedExtends | taxii_service/parsers.py:466-493 | the ignored-result calls only append to the call record, at most one entry per call |
| Properties.ActorTouches | taxii_service/parsers.py:452-503 | one actor writes only under its own id |
| Properties.ActorsTouchActorIds | taxii_service/parsers.py:442-503 | the actor pass writes only under threat-actor ids |
| Properties.EventExtends | taxii_service/parsers.py:143-186 | the Event step writes only under the package id and only appends failures |
| Properties.IndicatorPhaseExtends | taxii_service/parsers.py:188-194 | the indicator, campaign and comment passes only append failures, relationships and calls |
| Properties.WalkPhasesExtends | taxii_service/parsers.py:188-211 | all passes together only append to those ledgers |
| Properties.RunOnlyAppends | taxii_service/parsers.py:99-211 | over a whole run the failure ledger, the deferred relationships and the ignored calls are only appended to |
| Properties.NoSourceStopsRun | taxii_service/parsers.py:133-138 | the fatal no-source outcome happens exactly when neither source is known, and then nothing but the noted information source has changed |
| Properties.NamelessIdentityForgetsSource | taxii_service/parsers.py:122-138 | an identity without a name clears the noted information source, so an unknown requested source stops the run with "No source to attribute data to." whatever an earlier document noted |
| Properties.AddressOnlyThroughIpStep | taxii_service/parsers.py:723-728 | an Address that `make_crits_object` types as 'Address' is recorded only by the IP step; outside the IP categories it changes nothing |
| Properties.EmailDefersOnlyOnStatus | taxii_service/parsers.py:717-722 | attachments are deferred only on a true `status`, and then exactly one "Contains" relationship is appended per attachment |

## Left out

- Parsing the XML document (`STIXPackage.from_xml`) and the "STIX package failure" error: the model starts from the parsed package.
- The thin passes `set_releasability`, `parse_ttps`, `parse_rfi`, `parse_sectors`, `parse_sightings`, `parse_tlp`, `parse_sources`, `parse_aliases`, `parse_related_campaigns`, `parse_relationship` and `parse_kill_chain`. They only forward ledger entries to handlers. Their crash paths are left out too, such as the unbound `tlp` in `parse_tlp` (`taxii_service/parsers.py:330`).
- The clock at `taxii_service/parsers.py:146`: the current time is the parameter `now`, and its string form is the default Event description.
- `StructuredText.to_dict` on the Event description: a description is a plain string.
- The text of caught Python exceptions: a failure record carries `ExceptionText` instead.
- The persistence handlers, the vocabulary lookups (`get_crits_ip_type`, `get_crits_event_type`, `get_crits_actor_tags`), `make_crits_object`, UTF-8 decoding and `does_source_exist` are functions of one `Oracle` value, so each is pure. Whether `get_comments` or a call whose result is ignored raises is an `Oracle` function too. A handler's side effects on the knowledge base are not modelled, except two: the stored comments, and the calls whose results are ignored (`Effect`).
- The comment store read by `get_comments`: a constructor parameter and a field, updated by `comment_add`.
- `does_source_exist(None)`: it is taken to be false, so a package without a header source can only use the requested source.
- `comment.comment.encode('utf-8')`: the duplicate check compares the texts without an encoding.
- Crashes on absent optional sub-objects, for example a comment item without a producer (`taxii_service/parsers.py:432`), or an incident hint without a relationship.
- `saved_artifacts` is set but never used, so it is not a field.
- `Parser.STIXParser.ParseStix` appends a copy of the source instance. In the source the same object is appended on every call, so a second run would also change the reference of the first entry.
- `Parser.STIXParser.LedgerOrder`: the iteration order of a Python dict is one arbitrary enumeration of the keys, chosen by the method.
- Byte strings and unicode strings are both `string`. `str(value)` at `taxii_service/parsers.py:601` raises in Python 2 for a unicode value with non-ASCII characters; the model strips the value as a byte string and never raises there.
- `relate_objects` does not run as part of `parse_stix`; the caller calls it afterwards, and the model keeps it a separate method.
