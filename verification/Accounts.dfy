/** The pull Secrets of listed service accounts, by account. */
module Accounts {
  import opened Text
  import opened Extractor
  import opened OwnerResolution

  datatype ServiceAccount = ServiceAccount(namespace: string, name: string, imagePullSecrets: seq<string>)

  /** The references that have a name. */
  function Named(refs: seq<string>): (r: seq<string>)
    ensures forall n :: n in r <==> n in refs && n != ""
  {
    if refs == [] then []
    else
      var init, last := Named(refs[..|refs| - 1]), refs[|refs| - 1];
      assert refs == refs[..|refs| - 1] + [last];
      if last == "" then init else init + [last]
  }

  function KeyOf(account: ServiceAccount): string {
    ServiceAccountKey(account.namespace, account.name)
  }

  predicate SameAccount(a: ServiceAccount, b: ServiceAccount) {
    a.namespace == b.namespace && a.name == b.name
  }

  /** Accounts as Kubernetes lists them. */
  ghost predicate ListableAccounts(accounts: seq<ServiceAccount>) {
    && (forall a :: a in accounts ==> '/' !in a.namespace && TrimSpace(a.name) != "")
    && (forall a, b :: a in accounts && b in accounts && SameAccount(a, b) ==> a == b)
  }

  /** Accounts whose pull Secrets a rebuild keeps. */
  predicate Keeps(filter: NamespaceFilter, account: ServiceAccount) {
    filter.Include(account.namespace) && Named(account.imagePullSecrets) != []
  }

  /** The map holds what the listed accounts have, and nothing else. */
  ghost predicate HoldsPullSecrets(filter: NamespaceFilter, accounts: seq<ServiceAccount>,
                                   m: map<string, seq<string>>) {
    && (forall a :: a in accounts && Keeps(filter, a) ==> KeyOf(a) in m && m[KeyOf(a)] == Named(a.imagePullSecrets))
    && (forall k :: k in m ==> exists a :: a in accounts && Keeps(filter, a) && KeyOf(a) == k)
  }

  lemma KeyIsAccount(a: ServiceAccount, b: ServiceAccount)
    requires '/' !in a.namespace && TrimSpace(a.name) != "" && '/' !in b.namespace && TrimSpace(b.name) != ""
    requires KeyOf(a) == KeyOf(b)
    ensures SameAccount(a, b)
  {
    CutIsInjective(a.namespace, b.namespace, '/', a.name, b.name);
  }

  method PullSecretNames(refs: seq<string>) returns (names: seq<string>)
    ensures names == Named(refs)
  {
    names := [];
    for n := 0 to |refs|
      invariant names == Named(refs[..n])
    {
      assert refs[..n + 1][..n] == refs[..n];
      if refs[n] == "" {
        continue;
      }
      names := names + [refs[n]];
    }
    assert refs[..|refs|] == refs;
  }

  method CollectPullSecrets(filter: NamespaceFilter, accounts: seq<ServiceAccount>)
    returns (m: map<string, seq<string>>)
    requires ListableAccounts(accounts)
    ensures HoldsPullSecrets(filter, accounts, m)
  {
    hide ListableAccounts, HoldsPullSecrets, NamespaceFilter.Include;
    m := map[];
    assert HoldsPullSecrets(filter, accounts[..0], m) by { NothingHeld(filter); }
    for n := 0 to |accounts|
      invariant HoldsPullSecrets(filter, accounts[..n], m)
    {
      ghost var before := m;
      var account := accounts[n];
      assert accounts[..n + 1] == accounts[..n] + [account];
      HoldsOneMore(filter, accounts, n, before);
      if !filter.Include(account.namespace) {
        continue;
      }
      var names := PullSecretNames(account.imagePullSecrets);
      if |names| > 0 {
        m := m[ServiceAccountKey(account.namespace, account.name) := names];
      }
    }
    assert accounts[..|accounts|] == accounts;
  }

  lemma NothingHeld(filter: NamespaceFilter)
    ensures HoldsPullSecrets(filter, [], map[])
  {}

  lemma HoldsOneMore(filter: NamespaceFilter, accounts: seq<ServiceAccount>, n: nat, m: map<string, seq<string>>)
    requires ListableAccounts(accounts) && n < |accounts| && HoldsPullSecrets(filter, accounts[..n], m)
    ensures
      var a := accounts[n];
      HoldsPullSecrets(filter, accounts[..n] + [a],
                       if Keeps(filter, a) then m[KeyOf(a) := Named(a.imagePullSecrets)] else m)
  {
    hide KeyOf, Keeps, TrimSpace, NamespaceFilter.Include;
    var account := accounts[n];
    forall b | b in accounts[..n] && KeyOf(b) == KeyOf(account) ensures b == account {
      assert b in accounts;
      KeyIsAccount(b, account);
    }
    var r := if Keeps(filter, account) then m[KeyOf(account) := Named(account.imagePullSecrets)] else m;
    forall k | k in r ensures exists a :: a in accounts[..n] + [account] && Keeps(filter, a) && KeyOf(a) == k {
      if k in m {
        var a :| a in accounts[..n] && Keeps(filter, a) && KeyOf(a) == k;
        assert a in accounts[..n] + [account];
      } else {
        assert account in accounts[..n] + [account];
      }
    }
  }

  /** In whatever order the accounts are listed, the map is the same. */
  lemma PullSecretsIgnoreOrder(filter: NamespaceFilter, accounts: seq<ServiceAccount>, again: seq<ServiceAccount>,
                               m: map<string, seq<string>>, n: map<string, seq<string>>)
    requires HoldsPullSecrets(filter, accounts, m) && HoldsPullSecrets(filter, again, n)
    requires forall a :: a in accounts <==> a in again
    ensures m == n
  {
    hide KeyOf, Keeps, Named;
    assert forall k :: k in m ==> k in n && m[k] == n[k];
    assert forall k :: k in n ==> k in m;
  }

  /** What is looked up for a Pod is what its own account names; nothing if that is out of scope. */
  lemma LookUpIsOwnAccount(filter: NamespaceFilter, accounts: seq<ServiceAccount>, opts: Options, namespace: string,
                           account: string, name: string)
    requires ListableAccounts(accounts) && HoldsPullSecrets(filter, accounts, opts.serviceAccountImagePullSecrets)
    requires '/' !in namespace
    ensures name in ServiceAccountPullSecrets(opts, namespace, account) <==>
      exists a :: a in accounts && filter.Include(a.namespace) && SameAccount(a, Account(namespace, account))
        && name in a.imagePullSecrets && name != ""
  {
    hide KeyOf, NamespaceFilter.Include, TrimSpace, ServiceAccountKey;
    var own := Account(namespace, account);
    NameIsNotBlank(namespace, account);
    var m := opts.serviceAccountImagePullSecrets;
    if name in ServiceAccountPullSecrets(opts, namespace, account) {
      var a :| a in accounts && Keeps(filter, a) && KeyOf(a) == KeyOf(own);
      KeyIsAccount(a, own);
    }
    if a :| a in accounts && filter.Include(a.namespace) && SameAccount(a, own) && name in a.imagePullSecrets
            && name != "" {
      assert name in Named(a.imagePullSecrets);
      assert KeyOf(a) == KeyOf(own) by { SameKey(a, own); }
    }
  }

  /** The account that a Pod of the namespace runs under when it asks for one of the given name. */
  ghost function Account(namespace: string, name: string): ServiceAccount {
    ServiceAccount(namespace, if TrimSpace(name) == "" then "default" else name, [])
  }

  lemma SameKey(a: ServiceAccount, b: ServiceAccount)
    requires SameAccount(a, b)
    ensures KeyOf(a) == KeyOf(b)
  {}

  lemma NameIsNotBlank(namespace: string, name: string)
    ensures TrimSpace(ServiceAccountName(name)) != ""
    ensures KeyOf(Account(namespace, name)) == ServiceAccountKey(namespace, name)
  {
    assert TrimSpace("default") == "default";
  }
}
