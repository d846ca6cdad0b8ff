/**
 * `get_kube_session` (kubesession.py:54-95): resolves a kubeconfig's
 * context, cluster and user, and builds the session settings from them.
 */
module KubeSession {
  import opened Wrappers

  /** One entry of a kubeconfig list: `{name: ..., cluster|context|user: ...}`. */
  datatype Named<T> = Named(name: string, value: T)

  /** A context entry's body; `user` and `namespace` are optional keys. */
  datatype Context = Context(cluster: string, user: Option<string>, namespace: Option<string>)

  /** A cluster entry's body; an absent `insecure-skip-tls-verify` reads as false. */
  datatype Cluster = Cluster(server: string, certificateAuthority: Option<string>, insecureSkipTlsVerify: bool)

  /** A user entry's body: the credential keys the session reads. */
  datatype User = User(clientCertificate: Option<string>, clientKey: Option<string>, token: Option<string>)

  /** The user of a context that names none: `{}`. */
  const EmptyUser := User(None, None, None)

  /** A parsed kubeconfig document. */
  datatype KubeConfig = KubeConfig(
    currentContext: Option<string>,
    contexts: seq<Named<Context>>,
    clusters: seq<Named<Cluster>>,
    users: seq<Named<User>>)

  /**
   * What makes `get_kube_session` raise: a missing `current-context` or
   * `client-key` (a `KeyError`), a name no entry has (an `IndexError` from
   * `[0]`), or an https server URL that `urlparse` rejects (a `ValueError`).
   */
  datatype ConfigError =
    | MissingCurrentContext
    | ContextNotFound(name: string)
    | ClusterNotFound(name: string)
    | UserNotFound(name: string)
    | MissingClientKey
    | InvalidServerUrl(server: string)

  /** The entries the lookup settled on. */
  datatype Resolved = Resolved(context: Context, cluster: Cluster, user: User)

  /** `session.verify`: the library default (`True`), `False`, or a CA bundle path. */
  datatype Verify = VerifyDefault | VerifyOff | CaBundle(path: string)

  /**
   * The settings `get_kube_session` gives its session: the headers it adds,
   * `cert`, `verify`, and the server and namespace of the adapter it mounts on `kube://`.
   */
  datatype Session = Session(
    headers: map<string, string>,
    cert: Option<(string, string)>,
    verify: Verify,
    adapterServer: string,
    adapterNamespace: string)

  /** `v` is the value of the first entry called `name`. */
  ghost predicate IsFirstNamed<T>(entries: seq<Named<T>>, name: string, v: T) {
    exists i :: 0 <= i < |entries| && entries[i].name == name && entries[i].value == v
      && forall j :: 0 <= j < i ==> entries[j].name != name
  }

  /** No entry is called `name`. */
  ghost predicate NoneNamed<T>(entries: seq<Named<T>>, name: string) {
    forall i :: 0 <= i < |entries| ==> entries[i].name != name
  }

  /** `[e for e in entries if e['name'] == name]`: the entries called `name`, in order. */
  function Matching<T>(entries: seq<Named<T>>, name: string): (r: seq<Named<T>>)
    ensures |r| <= |entries|
    ensures forall k :: 0 <= k < |r| ==> r[k].name == name && r[k] in entries
  {
    if entries == [] then []
    else (if entries[0].name == name then [entries[0]] else []) + Matching(entries[1..], name)
  }

  /** The comprehension is empty exactly when no entry matches, and otherwise starts with the first match. */
  lemma {:induction false} MatchingHead<T>(entries: seq<Named<T>>, name: string)
    ensures Matching(entries, name) == [] <==> NoneNamed(entries, name)
    ensures Matching(entries, name) != [] ==> IsFirstNamed(entries, name, Matching(entries, name)[0].value)
  {
    if entries != [] {
      MatchingHead(entries[1..], name);
      var rest := Matching(entries[1..], name);
      if entries[0].name == name {
        assert IsFirstNamed(entries, name, entries[0].value);
      } else {
        assert Matching(entries, name) == rest;
        if rest == [] {
          forall i | 0 <= i < |entries| ensures entries[i].name != name {
            if i > 0 { assert entries[i] == entries[1..][i - 1]; }
          }
        } else {
          var k :| 0 <= k < |entries[1..]| && entries[1..][k].name == name
                   && entries[1..][k].value == rest[0].value
                   && forall j :: 0 <= j < k ==> entries[1..][j].name != name;
          forall j | 0 <= j < k + 1 ensures entries[j].name != name {
            if j > 0 { assert entries[j] == entries[1..][j - 1]; }
          }
          assert IsFirstNamed(entries, name, rest[0].value);
        }
        assert !NoneNamed(entries[1..], name) ==> !NoneNamed(entries, name) by {
          if !NoneNamed(entries[1..], name) {
            var i :| 0 <= i < |entries[1..]| && entries[1..][i].name == name;
            assert entries[i + 1].name == name;
          }
        }
      }
    }
  }

  /** `[...][0]['context']` and the like: the first entry called `name`, or none. */
  function Lookup<T>(entries: seq<Named<T>>, name: string): (r: Option<T>)
    ensures r.None? <==> NoneNamed(entries, name)
    ensures r.Some? ==> IsFirstNamed(entries, name, r.value)
  {
    MatchingHead(entries, name);
    var found := Matching(entries, name);
    if found == [] then None else Some(found[0].value)
  }

  /** The context to use: the caller's when one is passed, else the config's `current-context`. */
  function SelectedContext(config: KubeConfig, currentContext: Option<string>): (r: Option<string>)
    ensures r.None? <==> currentContext.None? && config.currentContext.None?
    ensures currentContext.Some? ==> r == currentContext
    ensures currentContext.None? ==> r == config.currentContext
  {
    if currentContext.None? then config.currentContext else currentContext
  }

  /**
   * The lookups of kubesession.py:55-63: context by name, cluster by the
   * context's `cluster`, and user by the context's `user` when it has one.
   */
  function ResolveConfig(config: KubeConfig, currentContext: Option<string>): (r: Result<Resolved, ConfigError>)
    ensures r == Failure(MissingCurrentContext) <==> SelectedContext(config, currentContext).None?
    ensures r.Success? ==>
      && SelectedContext(config, currentContext).Some?
      && IsFirstNamed(config.contexts, SelectedContext(config, currentContext).value, r.value.context)
      && IsFirstNamed(config.clusters, r.value.context.cluster, r.value.cluster)
      && (r.value.context.user.None? ==> r.value.user == EmptyUser)
      && (r.value.context.user.Some? ==> IsFirstNamed(config.users, r.value.context.user.value, r.value.user))
    ensures r.Failure? && r.error.ContextNotFound? ==>
      && SelectedContext(config, currentContext) == Some(r.error.name)
      && NoneNamed(config.contexts, r.error.name)
    ensures r.Failure? && r.error.ClusterNotFound? ==>
      && SelectedContext(config, currentContext).Some?
      && Lookup(config.contexts, SelectedContext(config, currentContext).value).Some?
      && Lookup(config.contexts, SelectedContext(config, currentContext).value).value.cluster == r.error.name
      && NoneNamed(config.clusters, r.error.name)
    ensures r.Failure? && r.error.UserNotFound? ==>
      && SelectedContext(config, currentContext).Some?
      && Lookup(config.contexts, SelectedContext(config, currentContext).value).Some?
      && Lookup(config.contexts, SelectedContext(config, currentContext).value).value.user == Some(r.error.name)
      && NoneNamed(config.users, r.error.name)
    ensures r.Failure? ==> !r.error.MissingClientKey? && !r.error.InvalidServerUrl?
  {
    var selected := SelectedContext(config, currentContext);
    if selected.None? then Failure(MissingCurrentContext)
    else
      var context := Lookup(config.contexts, selected.value);
      if context.None? then Failure(ContextNotFound(selected.value))
      else
        var cluster := Lookup(config.clusters, context.value.cluster);
        if cluster.None? then Failure(ClusterNotFound(context.value.cluster))
        else if context.value.user.None? then Success(Resolved(context.value, cluster.value, EmptyUser))
        else
          var user := Lookup(config.users, context.value.user.value);
          if user.None? then Failure(UserNotFound(context.value.user.value))
          else Success(Resolved(context.value, cluster.value, user.value))
  }

  /**
   * `get_kube_session(config, current_context, current_namespace, certificate_name)`.
   * `serverUrlParses(server)` stands for `urlparse(server)` returning rather
   * than raising. `hostIsIpLiteral(server)` stands for
   * `ipaddress.ip_address(parts.hostname)` succeeding on the parsed URL; any
   * failure of it counts as "not an IP address".
   */
  method GetKubeSession(
    config: KubeConfig,
    serverUrlParses: string -> bool,
    hostIsIpLiteral: string -> bool,
    currentContext: Option<string> := None,
    currentNamespace: string := "default",
    certificateName: string := "kubernetes")
    returns (r: Result<Session, ConfigError>)
    // Lookup failures surface unchanged.
    ensures ResolveConfig(config, currentContext).Failure? ==>
      r == Failure(ResolveConfig(config, currentContext).error)
    // Once the lookups succeed, the errors are a client certificate without a key and,
    // checked later, an https server URL that does not parse when verification is on.
    ensures ResolveConfig(config, currentContext).Success? ==>
      var res := ResolveConfig(config, currentContext).value;
      var missingKey := res.user.clientCertificate.Some? && res.user.clientKey.None?;
      var badUrl := "https://" <= res.cluster.server && !res.cluster.insecureSkipTlsVerify
                    && !serverUrlParses(res.cluster.server);
      && (r.Failure? <==> missingKey || badUrl)
      && (r.Failure? && missingKey ==> r.error == MissingClientKey)
      && (r.Failure? && !missingKey ==> r.error == InvalidServerUrl(res.cluster.server))
    // The adapter talks to the cluster's server, in the context's namespace if it names one.
    ensures r.Success? ==>
      var res := ResolveConfig(config, currentContext).value;
      && r.value.adapterServer == res.cluster.server
      && r.value.adapterNamespace == (if res.context.namespace.Some? then res.context.namespace.value else currentNamespace)
    // A client certificate goes with its key; a token becomes a bearer header. Neither excludes the other.
    ensures r.Success? ==>
      var user := ResolveConfig(config, currentContext).value.user;
      && (user.clientCertificate.None? ==> r.value.cert.None?)
      && (user.clientCertificate.Some? ==> r.value.cert == Some((user.clientCertificate.value, user.clientKey.value)))
      && ("Authorization" in r.value.headers <==> user.token.Some?)
      && (user.token.Some? ==> r.value.headers["Authorization"] == "Bearer " + user.token.value)
    ensures r.Success? ==> r.value.headers.Keys <= {"Authorization", "Host"}
    // TLS settings are left alone unless the server is https.
    ensures r.Success? && !("https://" <= ResolveConfig(config, currentContext).value.cluster.server) ==>
      r.value.verify == VerifyDefault && "Host" !in r.value.headers
    // Skipping verification switches it off and ignores the CA and the IP rule.
    ensures r.Success? ==>
      var cluster := ResolveConfig(config, currentContext).value.cluster;
      "https://" <= cluster.server && cluster.insecureSkipTlsVerify ==>
        r.value.verify == VerifyOff && "Host" !in r.value.headers
    // Otherwise an IP-literal host is checked under certificateName, and a CA bundle, if given, is trusted.
    ensures r.Success? ==>
      var cluster := ResolveConfig(config, currentContext).value.cluster;
      "https://" <= cluster.server && !cluster.insecureSkipTlsVerify ==>
        && ("Host" in r.value.headers <==> hostIsIpLiteral(cluster.server))
        && ("Host" in r.value.headers ==> r.value.headers["Host"] == certificateName)
        && (cluster.certificateAuthority.Some? ==> r.value.verify == CaBundle(cluster.certificateAuthority.value))
        && (cluster.certificateAuthority.None? ==> r.value.verify == VerifyDefault)
  {
    var resolved := ResolveConfig(config, currentContext);
    if resolved.Failure? {
      return Failure(resolved.error);
    }
    var context, cluster, user := resolved.value.context, resolved.value.cluster, resolved.value.user;

    var namespace := if context.namespace.Some? then context.namespace.value else currentNamespace;
    var s := Session(map[], None, VerifyDefault, cluster.server, namespace);

    if user.clientCertificate.Some? {
      if user.clientKey.None? {
        return Failure(MissingClientKey);
      }
      s := s.(cert := Some((user.clientCertificate.value, user.clientKey.value)));
    }

    if user.token.Some? {
      s := s.(headers := s.headers["Authorization" := "Bearer " + user.token.value]);
    }

    if "https://" <= cluster.server {
      if cluster.insecureSkipTlsVerify {
        s := s.(verify := VerifyOff);
      } else {
        if !serverUrlParses(cluster.server) {
          return Failure(InvalidServerUrl(cluster.server));
        }
        if hostIsIpLiteral(cluster.server) {
          s := s.(headers := s.headers["Host" := certificateName]);
        }
        if cluster.certificateAuthority.Some? {
          s := s.(verify := CaBundle(cluster.certificateAuthority.value));
        }
      }
    }
    return Success(s);
  }
}
