/** The annotation grammar: lists of Secret references, and what they parse to. */
module Annotations {
  import opened Basics
  import opened Text
  import opened GraphTypes

  // ----- The grammar -----

  /** secret, secret#key, namespace/secret and namespace/secret#key. */
  datatype Form = Form(namespaced: bool, keyed: bool)

  function Render(form: Form, ref: SecretRef): string {
    (if form.namespaced then ref.namespace + "/" else "")
    + ref.name
    + (if form.keyed then "#" + ref.key else "")
  }

  /** The form says which reference is meant: the first '/' and the next '#' are its own. */
  predicate Legible(form: Form, defaultNamespace: string, ref: SecretRef) {
    && ref.namespace != "" && ref.name != ""
    && '#' !in ref.name
    && (if form.namespaced then '/' !in ref.namespace
        else ref.namespace == defaultNamespace && '/' !in ref.name && '/' !in ref.key)
    && (!form.keyed ==> ref.key == "")
  }

  // ----- The parsers -----

  /** What stands before the first '/', or else the default; and the rest. */
  function CutNamespace(defaultNamespace: string, token: string): (string, string) {
    var slash := IndexOf(token, '/');
    if slash < |token| then (token[..slash], token[slash + 1..]) else (defaultNamespace, token)
  }

  /** What stands before and after the first '#'. */
  function CutKey(namePart: string): (string, string) {
    var hash := IndexOf(namePart, '#');
    if hash < |namePart| then (namePart[..hash], namePart[hash + 1..]) else (namePart, "")
  }

  function TokenRef(cluster: string, defaultNamespace: string, token: string): Result<SecretRef> {
    if token == "" then Err
    else
      var (namespace, namePart) := CutNamespace(defaultNamespace, token);
      var (name, key) := CutKey(namePart);
      if namespace == "" || name == "" then Err else Ok(SecretRef(cluster, namespace, name, key))
  }

  method ParseSecretRef(cluster: string, defaultNamespace: string, token: string) returns (r: Result<SecretRef>)
    ensures r == TokenRef(cluster, defaultNamespace, token)
  {
    if token == "" {
      return Err;
    }
    var ref := SecretRef(cluster, defaultNamespace, "", "");
    var namePart := token;
    var slash := IndexOf(token, '/');
    if slash < |token| {
      ref := ref.(namespace := token[..slash]);
      namePart := token[slash + 1..];
    }
    var hash := IndexOf(namePart, '#');
    if hash < |namePart| {
      ref := ref.(name := namePart[..hash]);
      ref := ref.(key := namePart[hash + 1..]);
    } else {
      ref := ref.(name := namePart);
    }
    if ref.namespace == "" || ref.name == "" {
      return Err;
    }
    r := Ok(ref);
  }

  /** The references of a list, unless one of its tokens is bad. */
  function TokenRefs(cluster: string, namespace: string, parts: seq<string>): (r: Result<seq<SecretRef>>)
    ensures r.Ok? ==> |r.value| == |parts|
  {
    if parts == [] then Ok([])
    else
      var n := |parts| - 1;
      match (TokenRefs(cluster, namespace, parts[..n]), TokenRef(cluster, namespace, TrimSpace(parts[n])))
      case (Ok(refs), Ok(ref)) => Ok(refs + [ref])
      case _ => Err
  }

  function WatchSecrets(cluster: string, namespace: string, value: string): Result<seq<SecretRef>> {
    if TrimSpace(value) == "" then Ok([]) else TokenRefs(cluster, namespace, Split(value, ','))
  }

  method ParseWatchSecrets(cluster: string, workloadNamespace: string, value: string)
    returns (r: Result<seq<SecretRef>>)
    ensures r == WatchSecrets(cluster, workloadNamespace, value)
  {
    hide TokenRef, TrimSpace, Split;
    if TrimSpace(value) == "" {
      return Ok([]);
    }
    var parts := Split(value, ',');
    var refs: seq<SecretRef> := [];
    for n := 0 to |parts|
      invariant TokenRefs(cluster, workloadNamespace, parts[..n]) == Ok(refs)
    {
      assert parts[..n + 1][..n] == parts[..n];
      var parsed := ParseSecretRef(cluster, workloadNamespace, TrimSpace(parts[n]));
      if parsed.Err? {
        BadTokenRejects(cluster, workloadNamespace, parts, n);
        return Err;
      }
      refs := refs + [parsed.value];
    }
    assert parts[..|parts|] == parts;
    r := Ok(refs);
  }

  /** One bad token and the whole list is refused. */
  lemma {:induction false} BadTokenRejects(cluster: string, namespace: string, parts: seq<string>, n: nat)
    requires n < |parts| && TokenRef(cluster, namespace, TrimSpace(parts[n])).Err?
    ensures TokenRefs(cluster, namespace, parts) == Err
  {
    hide TokenRef, TrimSpace;
    var last := |parts| - 1;
    if n < last {
      BadTokenRejects(cluster, namespace, parts[..last], n);
    }
  }

  /** A list parses exactly when each token does, to the references of its tokens in order. */
  lemma {:induction false} ListParsesByToken(cluster: string, namespace: string, parts: seq<string>,
                                             refs: seq<SecretRef>)
    ensures TokenRefs(cluster, namespace, parts) == Ok(refs) <==>
      |refs| == |parts| && forall i :: 0 <= i < |parts| ==>
        TokenRef(cluster, namespace, TrimSpace(parts[i])) == Ok(refs[i])
  {
    hide TokenRef, TrimSpace;
    if parts != [] && |refs| == |parts| {
      var n := |parts| - 1;
      ListParsesByToken(cluster, namespace, parts[..n], refs[..n]);
      assert refs == refs[..n] + [refs[n]];
      assert parts == parts[..n] + [parts[n]];
    }
  }

  // ----- The parser is the grammar -----

  function NamePart(form: Form, ref: SecretRef): string {
    ref.name + (if form.keyed then "#" + ref.key else "")
  }

  lemma CutOfRendered(form: Form, defaultNamespace: string, ref: SecretRef)
    requires Legible(form, defaultNamespace, ref)
    ensures CutNamespace(defaultNamespace, Render(form, ref)) == (ref.namespace, NamePart(form, ref))
  {
    hide IndexOf;
    var token, part := Render(form, ref), NamePart(form, ref);
    if form.namespaced {
      IndexOfPrefix(ref.namespace, '/', part);
      assert token == ref.namespace + ['/'] + part;
      assert token[..|ref.namespace|] == ref.namespace && token[|ref.namespace| + 1..] == part;
    } else {
      assert token == part;
      assert '/' !in token;
    }
  }

  lemma CutOfNamePart(form: Form, defaultNamespace: string, ref: SecretRef)
    requires Legible(form, defaultNamespace, ref)
    ensures CutKey(NamePart(form, ref)) == (ref.name, ref.key)
  {
    hide IndexOf;
    var part := NamePart(form, ref);
    if form.keyed {
      IndexOfPrefix(ref.name, '#', ref.key);
      assert part == ref.name + ['#'] + ref.key;
      assert part[..|ref.name|] == ref.name && part[|ref.name| + 1..] == ref.key;
    } else {
      assert part == ref.name && '#' !in part;
    }
  }

  lemma RenderedParses(cluster: string, defaultNamespace: string, form: Form, ref: SecretRef)
    requires ref.cluster == cluster && Legible(form, defaultNamespace, ref)
    ensures TokenRef(cluster, defaultNamespace, Render(form, ref)) == Ok(ref)
  {
    hide CutNamespace, CutKey, NamePart;
    CutOfRendered(form, defaultNamespace, ref);
    CutOfNamePart(form, defaultNamespace, ref);
    assert |Render(form, ref)| >= |ref.name| by { RenderedLength(form, ref); }
  }

  /** The form a token is read in. */
  function FormOf(token: string): Form {
    Form('/' in token, '#' in CutNamespace("", token).1)
  }

  lemma CutNamespaceIsRendered(defaultNamespace: string, token: string)
    ensures
      var (namespace, part) := CutNamespace(defaultNamespace, token);
      && part == CutNamespace("", token).1
      && token == (if '/' in token then namespace + "/" else "") + part
      && (if '/' in token then '/' !in namespace else namespace == defaultNamespace && '/' !in part)
  {
    hide IndexOf;
    var slash := IndexOf(token, '/');
    if slash < |token| {
      assert token == token[..slash] + "/" + token[slash + 1..];
    }
  }

  lemma CutKeyIsRendered(part: string)
    ensures
      var (name, key) := CutKey(part);
      && part == name + (if '#' in part then "#" + key else "")
      && '#' !in name && ('#' !in part ==> key == "")
  {
    hide IndexOf;
    var hash := IndexOf(part, '#');
    if hash < |part| {
      assert part == part[..hash] + "#" + part[hash + 1..];
    }
  }

  lemma ParsedIsRendered(cluster: string, defaultNamespace: string, token: string)
    requires TokenRef(cluster, defaultNamespace, token).Ok?
    ensures
      var ref := TokenRef(cluster, defaultNamespace, token).value;
      ref.cluster == cluster && Legible(FormOf(token), defaultNamespace, ref) && Render(FormOf(token), ref) == token
  {
    hide CutNamespace, CutKey;
    CutNamespaceIsRendered(defaultNamespace, token);
    var ref, form := TokenRef(cluster, defaultNamespace, token).value, FormOf(token);
    var part := CutNamespace(defaultNamespace, token).1;
    CutKeyIsRendered(part);
    assert part == NamePart(form, ref);
    if !form.namespaced { PartsAbsent(form, ref, '/'); }
    assert token == (if form.namespaced then ref.namespace + "/" else "") + ref.name
      + (if form.keyed then "#" + ref.key else "");
  }

  lemma PartsAbsent(form: Form, ref: SecretRef, c: char)
    requires c !in NamePart(form, ref)
    ensures c !in ref.name && (form.keyed ==> c !in ref.key)
  {}

  /** A token parses to a reference exactly when it is a legible rendering of it. */
  lemma TokenIsGrammar(cluster: string, defaultNamespace: string, token: string, ref: SecretRef)
    ensures TokenRef(cluster, defaultNamespace, token) == Ok(ref) <==>
      ref.cluster == cluster && exists form :: Legible(form, defaultNamespace, ref) && Render(form, ref) == token
  {
    hide TokenRef, Legible, Render;
    if TokenRef(cluster, defaultNamespace, token) == Ok(ref) {
      ParsedIsRendered(cluster, defaultNamespace, token);
    }
    if ref.cluster == cluster {
      if form :| Legible(form, defaultNamespace, ref) && Render(form, ref) == token {
        RenderedParses(cluster, defaultNamespace, form, ref);
      }
    }
  }

  // ----- Round trip of whole lists -----

  /** A reference as someone might write it in a list: in some form, with white space around. */
  datatype Entry = Entry(form: Form, ref: SecretRef, before: string, after: string)

  function Token(e: Entry): string {
    Render(e.form, e.ref)
  }

  function Written(e: Entry): string {
    e.before + Token(e) + e.after
  }

  function WrittenAll(entries: seq<Entry>): (r: seq<string>)
    ensures |r| == |entries|
    ensures forall i :: 0 <= i < |entries| ==> r[i] == Written(entries[i])
  {
    seq(|entries|, i requires 0 <= i < |entries| => Written(entries[i]))
  }

  function RefsOf(entries: seq<Entry>): (r: seq<SecretRef>)
    ensures |r| == |entries|
    ensures forall i :: 0 <= i < |entries| ==> r[i] == entries[i].ref
  {
    seq(|entries|, i requires 0 <= i < |entries| => entries[i].ref)
  }

  predicate Padded(e: Entry) {
    AllSpace(e.before) && AllSpace(e.after)
  }

  /** A reference that survives being written in this form. */
  predicate Survives(cluster: string, namespace: string, e: Entry) {
    && e.ref.cluster == cluster
    && Legible(e.form, namespace, e.ref)
    && ',' !in Token(e)
    && Trimmed(Token(e))
  }

  /** Trimmed and parsed, a written entry gives its reference back exactly when it survives. */
  lemma EntryRoundTrip(cluster: string, namespace: string, e: Entry)
    requires Padded(e) && ',' !in Token(e)
    ensures TokenRef(cluster, namespace, TrimSpace(Written(e))) == Ok(e.ref) <==> Survives(cluster, namespace, e)
  {
    hide TokenRef, Legible, Render, TrimSpace, AllSpace, Trimmed;
    TrimPadded(e.before, Token(e), e.after);
    if Survives(cluster, namespace, e) {
      RenderedParses(cluster, namespace, e.form, e.ref);
    }
    var trimmed := TrimSpace(Token(e));
    if TokenRef(cluster, namespace, trimmed) == Ok(e.ref) {
      ParsedIsRendered(cluster, namespace, trimmed);
      TrimSpaceShape(Token(e));
      var l, r :| AllSpace(l) && AllSpace(r) && Token(e) == l + trimmed + r;
      SameForm(namespace, e.ref, e.form, FormOf(trimmed), l, r);
    }
  }

  /** White space around a rendering cannot make it look like another form of the same reference. */
  lemma SameForm(namespace: string, ref: SecretRef, form: Form, read: Form, l: string, r: string)
    requires AllSpace(l) && AllSpace(r)
    requires Legible(read, namespace, ref) && Render(form, ref) == l + Render(read, ref) + r
    ensures form == read && l == "" && r == ""
  {
    var long, short := Render(form, ref), Render(read, ref);
    assert |long| == |l| + |short| + |r|;
    RenderedLength(form, ref);
    RenderedLength(read, ref);
    if form.namespaced && !read.namespaced {
      SlashIsKept(ref, form, l, short, r);
      assert false;
    }
    if form.namespaced == read.namespaced && form.keyed && !read.keyed {
      HashIsKept(namespace, ref, form, read, l, r);
      assert false;
    }
  }

  lemma HashIsKept(namespace: string, ref: SecretRef, form: Form, read: Form, l: string, r: string)
    requires AllSpace(l) && AllSpace(r) && Legible(read, namespace, ref)
    requires form.namespaced == read.namespaced && form.keyed && !read.keyed
    ensures Render(form, ref) != l + Render(read, ref) + r
  {
    var long, short := Render(form, ref), Render(read, ref);
    var other := l + short + r;
    assert long[|long| - 1] == '#';
    assert short[|short| - 1] == ref.name[|ref.name| - 1] != '#';
    if r != "" {
      assert other[|other| - 1] == r[|r| - 1] != '#';
    } else {
      assert other[|other| - 1] == short[|short| - 1];
    }
  }

  lemma RenderedLength(form: Form, ref: SecretRef)
    ensures |Render(form, ref)| ==
      |ref.name| + (if form.namespaced then |ref.namespace| + 1 else 0) + (if form.keyed then |ref.key| + 1 else 0)
  {}

  lemma SlashIsKept(ref: SecretRef, form: Form, l: string, short: string, r: string)
    requires form.namespaced && AllSpace(l) && AllSpace(r) && Render(form, ref) == l + short + r
    ensures '/' in short
  {
    assert '/' in ref.namespace + "/" by { assert (ref.namespace + "/")[|ref.namespace|] == '/'; }
    assert '/' in Render(form, ref);
    assert '/' !in l && '/' !in r;
  }

  lemma {:induction false} SplitOfAppend(x: string, y: string, c: char)
    ensures |Split(x + [c] + y, c)| == |Split(x, c)| + |Split(y, c)|
    decreases |x|
  {
    hide IndexOf, Split;
    var i := IndexOf(x, c);
    if i == |x| {
      SplitWhole(x, c);
      SplitAtFirst(x, c, y);
    } else {
      var head, rest := x[..i], x[i + 1..];
      SplitOfAppend(rest, y, c);
      assert x == head + [c] + rest;
      SplitAtFirst(head, c, rest);
      assert x + [c] + y == head + [c] + (rest + [c] + y);
      SplitAtFirst(head, c, rest + [c] + y);
    }
  }

  lemma SplitHasParts(s: string, c: char)
    ensures |Split(s, c)| >= 1
    ensures c in s ==> |Split(s, c)| >= 2
  {
    hide IndexOf;
  }

  /** A separator inside a part makes one part more. */
  lemma {:induction false} PartsOfJoin(parts: seq<string>, c: char)
    requires parts != []
    ensures |Split(Join(parts, [c]), c)| >= |parts|
    ensures (exists i :: 0 <= i < |parts| && c in parts[i]) ==> |Split(Join(parts, [c]), c)| > |parts|
  {
    hide IndexOf, Split;
    SplitHasParts(parts[0], c);
    if |parts| == 1 {
      assert Join(parts, [c]) == parts[0];
    } else {
      PartsOfJoin(parts[1..], c);
      SplitOfAppend(parts[0], Join(parts[1..], [c]), c);
      if i :| 0 <= i < |parts| && c in parts[i] && c !in parts[0] {
        assert parts[1..][i - 1] == parts[i];
      }
    }
  }

  /** A blank list names nothing, so it cannot stand for entries that survive. */
  lemma BlankNamesNothing(cluster: string, namespace: string, value: string)
    requires TrimSpace(value) == ""
    ensures TokenRefs(cluster, namespace, Split(value, ',')) == Err
  {
    hide IndexOf;
    TrimSpaceShape(value);
    var l, r :| AllSpace(l) && AllSpace(r) && value == l + TrimSpace(value) + r;
    assert ',' !in value;
    assert Split(value, ',') == [value];
    ListParsesByToken(cluster, namespace, [value], []);
    BadTokenRejects(cluster, namespace, [value], 0);
  }

  /**
   Writing references as a comma-separated list and parsing it gives the same references
   back exactly when each of them survives being written in its form.
   */
  lemma WatchListRoundTrip(cluster: string, namespace: string, entries: seq<Entry>)
    requires forall i :: 0 <= i < |entries| ==> Padded(entries[i])
    ensures WatchSecrets(cluster, namespace, Join(WrittenAll(entries), ",")) == Ok(RefsOf(entries)) <==>
            forall i :: 0 <= i < |entries| ==> Survives(cluster, namespace, entries[i])
  {
    hide TokenRef, TokenRefs, Token, Split, Join, TrimSpace, Survives, Padded;
    var written := WrittenAll(entries);
    var value := Join(written, ",");
    if entries == [] {
      NothingWritten(cluster, namespace, entries);
    } else if i :| 0 <= i < |entries| && ',' in Token(entries[i]) {
      CommaBreaksEntry(cluster, namespace, entries, i);
    } else {
      forall i | 0 <= i < |entries| ensures ',' !in written[i] {
        NoCommaWritten(entries[i]);
      }
      SplitOfJoin(written, ',');
      ListParsesByToken(cluster, namespace, written, RefsOf(entries));
      forall i | 0 <= i < |entries|
        ensures TokenRef(cluster, namespace, TrimSpace(written[i])) == Ok(entries[i].ref) <==>
          Survives(cluster, namespace, entries[i])
      {
        EntryRoundTrip(cluster, namespace, entries[i]);
      }
      if TrimSpace(value) == "" {
        BlankNamesNothing(cluster, namespace, value);
      }
    }
  }

  lemma NothingWritten(cluster: string, namespace: string, entries: seq<Entry>)
    requires entries == []
    ensures WatchSecrets(cluster, namespace, Join(WrittenAll(entries), ",")) == Ok(RefsOf(entries))
  {}

  lemma NoCommaWritten(e: Entry)
    requires Padded(e) && ',' !in Token(e)
    ensures ',' !in Written(e)
  {}

  lemma CommaBreaksEntry(cluster: string, namespace: string, entries: seq<Entry>, i: nat)
    requires i < |entries| && ',' in Token(entries[i])
    ensures !Survives(cluster, namespace, entries[i])
    ensures WatchSecrets(cluster, namespace, Join(WrittenAll(entries), ",")) != Ok(RefsOf(entries))
  {
    hide TokenRef, Token, Split, Join, TrimSpace, TokenRefs;
    var written := WrittenAll(entries);
    assert ',' in written[i];
    PartsOfJoin(written, ',');
  }
}
