/** What an extracted input says of its workload: its mode and its metadata, from annotations and labels. */
module Metadata {
  import opened Text
  import opened GraphTypes
  import opened Merge
  import opened Extractor

  /** An annotation's text as it is compared: trimmed and in lower case, "" if there is none. */
  function Plain(annotations: Values, key: string): string {
    if key in annotations then ToLower(TrimSpace(annotations[key])) else ""
  }

  /** The object is annotated to be left alone. */
  predicate SwitchedOff(annotations: Values) {
    Plain(annotations, "kbeacon.io/enabled") in {"false", "0", "no", "off", "disabled"}
  }

  /** A known mode in the annotation is taken; anything else leaves the default, or hybrid where that is empty. */
  lemma InputHasAnnotatedMode(opts: Options, w: WorkloadRef, annotations: Values, labels: Values, spec: Spec,
                              decode: Decoder, input: WorkloadInput)
    requires IsInput(opts, w, annotations, labels, spec, decode, input)
    ensures
      var text := Plain(annotations, "kbeacon.io/discovery-mode");
      input.discoveryMode ==
        if SwitchedOff(annotations) then "disabled"
        else if text in {"infer", "explicit", "hybrid", "disabled"} then text
        else if opts.defaultMode == "" then "hybrid"
        else opts.defaultMode
    ensures input.discoveryMode == "disabled" ==> input.edges == []
  {
    hide ToLower, TrimSpace, MergeAll, References, NotIgnored, Ignored, MetadataOf, WithDefaults;
    assert input.discoveryMode == input.(edges := []).discoveryMode;
    BlankIsNoMode();
    if input.edges != [] {
      assert input.edges[0].id in MergeAll(AtExtraction, KeptReferences(opts, w, spec, annotations, decode));
      if input.discoveryMode == "disabled" { NothingMerged(); }
    }
  }

  lemma BlankIsNoMode()
    ensures ToLower(TrimSpace("")) == ""
  {}

  lemma NothingMerged()
    ensures MergeAll(AtExtraction, []) == map[]
  {}

  /** The value is the annotation's, or where that is blank the first that the labels have under the keys. */
  ghost predicate IsMetadata(value: string, annotations: Values, annotation: string, labels: Values, enabled: bool,
                             keys: seq<string>)
  {
    var own := if annotation in annotations then TrimSpace(annotations[annotation]) else "";
    if own != "" then value == own
    else if enabled then IsFirstLabel(labels, keys, value)
    else value == ""
  }

  function OrElse(keys: seq<string>, defaults: seq<string>): seq<string> {
    if keys == [] then defaults else keys
  }

  /** Owner, service, environment and criticality each come from their own annotation, or else their own labels. */
  lemma InputHasMetadata(opts: Options, w: WorkloadRef, annotations: Values, labels: Values, spec: Spec,
                         decode: Decoder, input: WorkloadInput)
    requires IsInput(opts, w, annotations, labels, spec, decode, input)
    ensures input.ref == w
    ensures
      var keys, on := opts.metadataLabelKeys, opts.metadataLabelsEnabled;
      && IsMetadata(input.ownerTeam, annotations, "kbeacon.io/owner-team", labels, on,
                    OrElse(keys.ownerTeam, ["app.kubernetes.io/team", "team", "owner-team", "ownerTeam",
                                            "technical-owner", "technicalOwner", "business-owner", "businessOwner"]))
      && IsMetadata(input.service, annotations, "kbeacon.io/service", labels, on,
                    OrElse(keys.service, ["app.kubernetes.io/name", "app", "service", "service-name", "serviceName"]))
      && IsMetadata(input.environment, annotations, "kbeacon.io/environment", labels, on,
                    OrElse(keys.environment, ["app.kubernetes.io/environment", "environment", "env", "stage"]))
      && IsMetadata(input.criticality, annotations, "kbeacon.io/criticality", labels, on,
                    OrElse(keys.criticality, ["app.kubernetes.io/criticality", "criticality", "priority", "tier",
                                              "slo-tier"]))
  {
    hide TrimSpace, Lists, MetadataOf, IsFirstLabel, DiscoveryModeFor, KeptReferences;
    var d := Described(opts, w, annotations, labels);
    assert input.(edges := []) == d;
    assert input.ref == d.ref && input.ownerTeam == d.ownerTeam && input.service == d.service
      && input.environment == d.environment && input.criticality == d.criticality;
    var keys, on := WithDefaults(opts.metadataLabelKeys), opts.metadataLabelsEnabled;
    BlankIsBlank();
    MetadataIsFirst(ValueOf(annotations, "kbeacon.io/owner-team"), labels, keys.ownerTeam, on);
    MetadataIsFirst(ValueOf(annotations, "kbeacon.io/service"), labels, keys.service, on);
    MetadataIsFirst(ValueOf(annotations, "kbeacon.io/environment"), labels, keys.environment, on);
    MetadataIsFirst(ValueOf(annotations, "kbeacon.io/criticality"), labels, keys.criticality, on);
  }

  lemma BlankIsBlank()
    ensures TrimSpace("") == ""
  {}

  /** An object's own value comes before its template's, which counts only where templates are read. */
  lemma OwnValueFirst(object_: Values, template: Values, includeTemplate: bool, key: string)
    ensures
      var all := Effective(object_, template, includeTemplate);
      && (key in all <==> key in object_ || (includeTemplate && key in template))
      && (key in object_ ==> all[key] == object_[key])
      && (key in all && key !in object_ ==> all[key] == template[key])
  {}
}
