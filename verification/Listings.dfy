/** What the annotations of an object list, token by token. */
module Listings {
  import opened Basics
  import opened Text
  import opened GraphTypes
  import opened Ids
  import opened Annotations
  import opened Extractor

  /** The trimmed text of the annotation, "" if there is none. */
  function TextOf(annotations: Values, key: string): string {
    if key in annotations then TrimSpace(annotations[key]) else ""
  }

  /** Every comma-separated token of the text is a reference. */
  ghost predicate AllGood(cluster: string, namespace: string, text: string) {
    forall part :: part in Split(text, ',') ==> TokenRef(cluster, namespace, TrimSpace(part)).Ok?
  }

  ghost predicate HasToken(cluster: string, namespace: string, text: string, ref: SecretRef) {
    exists part :: part in Split(text, ',') && TokenRef(cluster, namespace, TrimSpace(part)) == Ok(ref)
  }

  /** A comma-separated annotation lists a reference exactly if one of its tokens is it and all of them are good. */
  lemma ListedExactly(cluster: string, namespace: string, annotations: Values, key: string, ref: SecretRef)
    ensures
      var text := TextOf(annotations, key);
      ref in ListedRefs(cluster, namespace, annotations, key) <==>
        text != "" && AllGood(cluster, namespace, text) && HasToken(cluster, namespace, text, ref)
  {
    hide TokenRef, TokenRefs, Split, TrimSpace;
    var text := TextOf(annotations, key);
    BlankIsTrimmed(annotations, key);
    if text != "" {
      var parts := Split(text, ',');
      match TokenRefs(cluster, namespace, parts)
      case Ok(refs) =>
        ListParsesByToken(cluster, namespace, parts, refs);
        TokensAreRefs(cluster, namespace, text, refs, ref);
      case Err =>
        if AllGood(cluster, namespace, text) {
          var refs := RefsOfGood(cluster, namespace, text);
          ListParsesByToken(cluster, namespace, parts, refs);
        }
    }
  }

  lemma BlankIsTrimmed(annotations: Values, key: string)
    ensures TrimSpace(ValueOf(annotations, key)) == TextOf(annotations, key)
    ensures TrimSpace(TextOf(annotations, key)) == TextOf(annotations, key)
  {
    hide TrimSpace;
    assert TrimSpace("") == "" by { EmptyIsTrimmed(); }
    if key in annotations { TrimmedTwice(annotations[key]); }
  }

  lemma TrimmedTwice(s: string)
    ensures TrimSpace(TrimSpace(s)) == TrimSpace(s)
  {
    hide TrimSpace;
    TrimSpaceShape(s);
    TrimPadded("", TrimSpace(s), "");
  }

  lemma EmptyIsTrimmed()
    ensures TrimSpace("") == ""
  {}

  lemma TokensAreRefs(cluster: string, namespace: string, text: string, refs: seq<SecretRef>, ref: SecretRef)
    requires
      var parts := Split(text, ',');
      |refs| == |parts| && forall i :: 0 <= i < |parts| ==>
        TokenRef(cluster, namespace, TrimSpace(parts[i])) == Ok(refs[i])
    ensures AllGood(cluster, namespace, text) && (ref in refs <==> HasToken(cluster, namespace, text, ref))
  {
    hide TokenRef, Split, TrimSpace;
    var parts := Split(text, ',');
    if ref in refs {
      var i :| 0 <= i < |refs| && refs[i] == ref;
      assert parts[i] in parts;
    }
    if part :| part in parts && TokenRef(cluster, namespace, TrimSpace(part)) == Ok(ref) {
      var i :| 0 <= i < |parts| && parts[i] == part;
      assert refs[i] == ref;
    }
  }

  lemma RefsOfGood(cluster: string, namespace: string, text: string) returns (refs: seq<SecretRef>)
    requires AllGood(cluster, namespace, text)
    ensures
      var parts := Split(text, ',');
      |refs| == |parts| && forall i :: 0 <= i < |parts| ==>
        TokenRef(cluster, namespace, TrimSpace(parts[i])) == Ok(refs[i])
  {
    hide TokenRef, Split, TrimSpace;
    var parts := Split(text, ',');
    forall i | 0 <= i < |parts| ensures TokenRef(cluster, namespace, TrimSpace(parts[i])).Ok? {
      assert parts[i] in parts;
    }
    refs := seq(|parts|, i requires 0 <= i < |parts| => TokenRef(cluster, namespace, TrimSpace(parts[i])).value);
  }

  /** The decoded annotation lists a reference exactly if one of its texts is it, whatever the others are. */
  lemma DecodedExactly(cluster: string, namespace: string, annotations: Values, decode: Decoder, ref: SecretRef)
    ensures
      var text := TextOf(annotations, "kbeacon.io/watch-secrets-json");
      ref in DecodedRefs(cluster, namespace, annotations, decode) <==>
        text != "" && decode(text).Some?
        && exists token :: token in decode(text).value && TokenRef(cluster, namespace, token) == Ok(ref)
  {
    hide TokenRef, GoodRefs, TrimSpace;
    var text := TextOf(annotations, "kbeacon.io/watch-secrets-json");
    BlankIsTrimmed(annotations, "kbeacon.io/watch-secrets-json");
    if text != "" && decode(text).Some? {
      GoodExactly(cluster, namespace, decode(text).value, ref);
    }
  }

  lemma {:induction false} GoodExactly(cluster: string, namespace: string, tokens: seq<string>, ref: SecretRef)
    ensures ref in GoodRefs(cluster, namespace, tokens) <==>
      exists token :: token in tokens && TokenRef(cluster, namespace, token) == Ok(ref)
  {
    hide TokenRef;
    if tokens != [] {
      GoodExactly(cluster, namespace, tokens[..|tokens| - 1], ref);
      assert tokens == tokens[..|tokens| - 1] + [tokens[|tokens| - 1]];
    }
  }

  /** A Secret is ignored exactly if the ignore annotation is good and one of its tokens has the Secret's key. */
  lemma IgnoredExactly(opts: Options, w: WorkloadRef, annotations: Values, k: string)
    ensures
      var text := TextOf(annotations, "kbeacon.io/ignore-secrets");
      k in Ignored(opts, w, annotations) <==>
        text != "" && AllGood(opts.cluster, w.namespace, text)
        && exists ref :: HasToken(opts.cluster, w.namespace, text, ref) && SecretID(ref) == k
  {
    hide ListedRefs, AllGood, HasToken, TrimSpace, SecretID;
    var text := TextOf(annotations, "kbeacon.io/ignore-secrets");
    forall ref
      ensures ref in ListedRefs(opts.cluster, w.namespace, annotations, IGNORE_SECRETS) <==>
        text != "" && AllGood(opts.cluster, w.namespace, text) && HasToken(opts.cluster, w.namespace, text, ref)
    {
      ListedExactly(opts.cluster, w.namespace, annotations, "kbeacon.io/ignore-secrets", ref);
    }
  }
}
