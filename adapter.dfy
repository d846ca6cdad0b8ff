/**
 * `_KubernetesAdapter` (kubesession.py:8-51): the transport adapter mounted
 * on `kube://` URLs. On every request it rewrites the URL and points the
 * pool's TLS hostname check at the request's own `Host` header.
 */
module KubeAdapter {
  import opened Wrappers
  import opened Text

  /** The pseudo-scheme that stands for the cluster's server URL. */
  const KubeScheme: string := "kube://"

  /** The placeholder that stands for the session's namespace. */
  const NamespacePlaceholder: string := "$$NAMESPACE$$"

  /** The connection-pool keyword that urllib3 checks the certificate's hostname against. */
  const AssertHostname: string := "assert_hostname"

  /** One request header, in the order the request's header dictionary yields it. */
  datatype Header = Header(name: string, value: string)

  /**
   * The request URL after the rewrite: `kube://` first, then the namespace
   * placeholder. It holds no character that is not in the URL, the server or
   * the namespace.
   */
  function RewriteUrl(url: string, server: string, namespace: string): (r: string)
    ensures forall c :: c in r ==> c in url || c in server || c in namespace
  {
    ReplaceAllChars(url, KubeScheme, server);
    ReplaceAllChars(ReplaceAll(url, KubeScheme, server), NamespacePlaceholder, namespace);
    ReplaceAll(ReplaceAll(url, KubeScheme, server), NamespacePlaceholder, namespace)
  }

  /** A URL holding neither `kube://` nor the placeholder is sent as it is. */
  lemma RewriteUrlUnchanged(url: string, server: string, namespace: string)
    requires Absent(url, KubeScheme) && Absent(url, NamespacePlaceholder)
    ensures RewriteUrl(url, server, namespace) == url
  {
    ReplaceAllAbsent(url, KubeScheme, server);
    ReplaceAllAbsent(url, NamespacePlaceholder, namespace);
  }

  /** `kube://` + rest: the scheme is replaced by the server, and a rest without another `kube://` is kept. */
  lemma ReplaceKubeScheme(server: string, rest: string)
    requires Absent(rest, KubeScheme)
    ensures ReplaceAll(KubeScheme + rest, KubeScheme, server) == server + rest
  {
    var url := KubeScheme + rest;
    assert OccursAt(url, KubeScheme, 0) by {
      assert url[..|KubeScheme|] == KubeScheme;
    }
    ReplaceAllFirst(url, KubeScheme, server, 0);
    assert url[|KubeScheme|..] == rest;
    ReplaceAllAbsent(rest, KubeScheme, server);
  }

  /**
   * `kube://` followed by a path is sent to the server: the path is appended
   * to the server URL verbatim when it holds no further `kube://` and the
   * joined URL holds no placeholder.
   */
  lemma RewriteKubePath(server: string, namespace: string, path: string)
    requires Absent(path, KubeScheme)
    requires Absent(server + path, NamespacePlaceholder)
    ensures RewriteUrl(KubeScheme + path, server, namespace) == server + path
  {
    ReplaceKubeScheme(server, path);
    ReplaceAllAbsent(server + path, NamespacePlaceholder, namespace);
  }

  /**
   * A `kube://` URL whose path holds the placeholder: the server is put in
   * front and the namespace in place of the placeholder's first occurrence
   * in the joined URL, and the rest, holding no further placeholder, is kept.
   */
  lemma RewriteKubeNamespacePath(server: string, namespace: string, before: string, after: string)
    requires Absent(before + NamespacePlaceholder + after, KubeScheme)
    requires AbsentBefore(server + before + NamespacePlaceholder + after, NamespacePlaceholder, |server + before|)
    requires Absent(after, NamespacePlaceholder)
    ensures RewriteUrl(KubeScheme + before + NamespacePlaceholder + after, server, namespace)
            == server + before + namespace + after
  {
    var rest := before + NamespacePlaceholder + after;
    assert KubeScheme + before + NamespacePlaceholder + after == KubeScheme + rest;
    ReplaceKubeScheme(server, rest);
    var s := server + rest;
    var i := |server + before|;
    assert s == server + before + NamespacePlaceholder + after;
    assert OccursAt(s, NamespacePlaceholder, i) by {
      assert s[i..i + |NamespacePlaceholder|] == NamespacePlaceholder;
    }
    ReplaceAllFirst(s, NamespacePlaceholder, namespace, i);
    assert s[..i] == server + before;
    assert s[i + |NamespacePlaceholder|..] == after;
    ReplaceAllAbsent(after, NamespacePlaceholder, namespace);
  }

  /**
   * The rewrite of kubesession_test.py's namespace-expansion request:
   * `kube:///api/v1/$$NAMESPACE$$/pods` goes to `<server>/api/v1/<namespace>/pods`.
   */
  lemma RewriteNamespaceExpansion(server: string, namespace: string)
    requires forall k :: 0 <= k < |server| ==> server[k] != '$'
    ensures RewriteUrl("kube:///api/v1/$$NAMESPACE$$/pods", server, namespace)
            == server + "/api/v1/" + namespace + "/pods"
  {
    var before, after := "/api/v1/", "/pods";
    assert "kube:///api/v1/$$NAMESPACE$$/pods" == KubeScheme + before + NamespacePlaceholder + after;
    var rest := before + NamespacePlaceholder + after;
    AbsentBeforeNoStart(rest, [], KubeScheme);
    assert rest + [] == rest;
    var pre := server + before;
    assert forall k :: 0 <= k < |pre| ==> pre[k] != '$' by {
      forall k | 0 <= k < |pre| ensures pre[k] != '$' {
        if k >= |server| { assert pre[k] == before[k - |server|]; }
      }
    }
    AbsentBeforeNoStart(pre, NamespacePlaceholder + after, NamespacePlaceholder);
    assert pre + (NamespacePlaceholder + after) == server + before + NamespacePlaceholder + after;
    AbsentBeforeNoStart(after, [], NamespacePlaceholder);
    assert after + [] == after;
    RewriteKubeNamespacePath(server, namespace, before, after);
  }

  /**
   * `header.lower() == "host"`: header names compare case-insensitively
   * (RFC 7230, section 3.2); lower-casing keeps the length, so only
   * four-character names qualify.
   */
  predicate IsHostName(name: string)
    ensures IsHostName(name) ==> |name| == 4
  {
    Lower(name) == "host"
  }

  /** Exactly the sixteen spellings of `host` in upper and lower case are the Host header. */
  lemma IsHostNameSpellings(name: string)
    ensures IsHostName(name) <==>
      |name| == 4 && name[0] in "hH" && name[1] in "oO" && name[2] in "sS" && name[3] in "tT"
  {
  }

  /** The value of the first header whose name is `host` in any case, if there is one. */
  function FindHost(headers: seq<Header>): (r: Option<string>)
    ensures r.None? <==> forall i :: 0 <= i < |headers| ==> !IsHostName(headers[i].name)
    ensures r.Some? ==> exists i :: 0 <= i < |headers| && IsHostName(headers[i].name)
                          && headers[i].value == r.value
                          && forall j :: 0 <= j < i ==> !IsHostName(headers[j].name)
  {
    if headers == [] then None
    else if IsHostName(headers[0].name) then Some(headers[0].value)
    else
      var r := FindHost(headers[1..]);
      assert r.Some? ==> exists i :: 0 <= i < |headers| && IsHostName(headers[i].name)
                          && headers[i].value == r.value
                          && forall j :: 0 <= j < i ==> !IsHostName(headers[j].name) by {
        if r.Some? {
          var k :| 0 <= k < |headers[1..]| && IsHostName(headers[1..][k].name)
                   && headers[1..][k].value == r.value
                   && forall j :: 0 <= j < k ==> !IsHostName(headers[1..][j].name);
          assert forall j :: 0 <= j < k + 1 ==> !IsHostName(headers[j].name) by {
            forall j | 0 <= j < k + 1 ensures !IsHostName(headers[j].name) {
              if j > 0 { assert headers[j] == headers[1..][j - 1]; }
            }
          }
        }
      }
      r
  }

  /** The first Host header decides: any later one, in any case, is ignored. */
  lemma FindHostFirstWins(headers: seq<Header>, i: nat)
    requires i < |headers| && IsHostName(headers[i].name)
    requires forall j :: 0 <= j < i ==> !IsHostName(headers[j].name)
    ensures FindHost(headers) == Some(headers[i].value)
  {
  }

  /**
   * The pool keywords after a request whose Host header is `host`: a
   * non-empty Host value becomes the hostname to check, and otherwise any
   * hostname left by an earlier request is dropped. No other keyword changes.
   */
  function WithAssertHostname(poolKw: map<string, string>, host: Option<string>): (r: map<string, string>)
    ensures AssertHostname in r <==> host.Some? && host.value != ""
    ensures AssertHostname in r ==> r[AssertHostname] == host.value
    ensures r.Keys - {AssertHostname} == poolKw.Keys - {AssertHostname}
    ensures forall k :: k in r && k != AssertHostname ==> k in poolKw && r[k] == poolKw[k]
  {
    if host.Some? && host.value != "" then poolKw[AssertHostname := host.value]
    else poolKw - {AssertHostname}
  }

  /**
   * Nothing one request leaves in the pool keywords reaches the next: the
   * keywords after two requests are those the second would have produced alone.
   */
  lemma NoHostnameLeak(poolKw: map<string, string>, first: Option<string>, second: Option<string>)
    ensures WithAssertHostname(WithAssertHostname(poolKw, first), second)
            == WithAssertHostname(poolKw, second)
  {
  }

  /**
   * A request carrying one Host header, such as the `Host: <certificate name>`
   * that a session to an IP-literal server adds, has the pool check the
   * server's certificate against that name.
   */
  lemma HostHeaderPinsHostname(poolKw: map<string, string>, headers: seq<Header>, i: nat)
    requires i < |headers| && headers[i].name == "Host" && headers[i].value != ""
    requires forall j :: 0 <= j < |headers| && j != i ==> !IsHostName(headers[j].name)
    ensures AssertHostname in WithAssertHostname(poolKw, FindHost(headers))
    ensures WithAssertHostname(poolKw, FindHost(headers))[AssertHostname] == headers[i].value
  {
    FindHostFirstWins(headers, i);
  }

  /** The part of a `requests.PreparedRequest` the adapter touches. */
  class Request {
    var url: string
    var headers: seq<Header>

    constructor (url: string, headers: seq<Header>)
      ensures this.url == url && this.headers == headers
    {
      this.url := url;
      this.headers := headers;
    }
  }

  class KubernetesAdapter {
    const server: string
    const namespace: string
    /** `self.poolmanager.connection_pool_kw`, shared by every request sent through this adapter. */
    var poolKw: map<string, string>

    /** `_KubernetesAdapter(server, namespace)`; `poolKw` is what the transport starts its pool with. */
    constructor (server: string, namespace: string, poolKw: map<string, string>)
      ensures this.server == server && this.namespace == namespace && this.poolKw == poolKw
    {
      this.server := server;
      this.namespace := namespace;
      this.poolKw := poolKw;
    }

    /**
     * `send` up to the hand-over to the transport: rewrites the request's URL
     * in place and sets or clears the hostname the pool checks certificates against.
     */
    method Send(request: Request)
      modifies this`poolKw, request`url
      ensures request.url == RewriteUrl(old(request.url), server, namespace)
      ensures poolKw == WithAssertHostname(old(poolKw), FindHost(request.headers))
    {
      request.url := ReplaceAll(ReplaceAll(request.url, KubeScheme, server), NamespacePlaceholder, namespace);
      var hostHeader: Option<string> := None;
      var headers := request.headers;
      var i := 0;
      while i < |headers|
        invariant 0 <= i <= |headers|
        invariant forall j :: 0 <= j < i ==> !IsHostName(headers[j].name)
        invariant hostHeader == None
      {
        if Lower(headers[i].name) == "host" {
          hostHeader := Some(headers[i].value);
          FindHostFirstWins(headers, i);
          break;
        }
        i := i + 1;
      }
      if hostHeader.Some? && hostHeader.value != "" {
        poolKw := poolKw[AssertHostname := hostHeader.value];
      } else if AssertHostname in poolKw {
        poolKw := poolKw - {AssertHostname};
      }
    }
  }
}
