# kubesession in Dafny

kubesession turns a parsed Kubernetes kubeconfig into a `requests` session
that talks to the cluster's API server. This project models its single
module, `kubesession.py`, in two parts.

- **`get_kube_session`** (module `KubeSession`, file `session.dfy`).
  - It picks the context: the caller's if given, else `current-context`.
  - It finds the first context with that name, then the first cluster the context names.
  - When the context has a `user` key, it finds the first user with that name.
  - It then builds the session step by step: the server and namespace of the adapter mounted on `kube://`, a client certificate, an `Authorization: Bearer` header, and the TLS settings.
  - The lookups are pure functions over sequences of named entries (`Matching` is the list comprehension and `Lookup` takes its `[0]`).
  - `ResolveConfig` returns a `Result`. Each Python `KeyError`/`IndexError` becomes a `ConfigError`.
  - `GetKubeSession` is a method that updates a `Session` record field by field, as the source assigns `s.cert`, `s.headers[...]` and `s.verify`.
- **`_KubernetesAdapter`** (module `KubeAdapter`, file `adapter.dfy`).
  - `KubernetesAdapter` is a class. It holds the server, the namespace and the pool keyword dictionary `poolKw`, which persists from one request to the next.
  - `Send` rewrites the request's URL in place. It loops over the headers until it finds the first one named `host`, ignoring case, then sets or clears `assert_hostname` in `poolKw`.
  - Its contract ties the new URL to `RewriteUrl` and the new `poolKw` to `WithAssertHostname`. The lemmas and `ensures` clauses of those functions state what they mean.
- `text.dfy` (module `Text`) models Python's `str.replace` as `ReplaceAll`. Its lemmas characterise it: a string without the pattern is unchanged, the first occurrence is the first one replaced, and a prefix that cannot start the pattern is copied as it is.
- `wrappers.dfy` holds `Option` and `Result`.

Behaviour of the code worth noting:
- The namespace placeholder is `$$NAMESPACE$$` (kubesession.py:35, exercised by kubesession_test.py:133-134). The class docstring at kubesession.py:17 still says `{namespace}`, which the code does not replace.
- A client certificate (kubesession.py:69-70) and a token (kubesession.py:72-73) are set by independent `if`s, so both may be set. Basic auth is only a TODO (kubesession.py:75).
- The context's `namespace` is used whenever the key is present, even when it is empty (`context.get`, kubesession.py:66).
- An https server URL that `urlparse` rejects (kubesession.py:84, outside the `try`) makes `get_kube_session` raise. Once the URL is parsed, any failure of `ipaddress.ip_address(parts.hostname)` is swallowed by the bare `except:` (kubesession.py:85-91): the host counts as not an IP and no `Host` header is added.
- Certificate and CA files are never opened. A `client-key` without a `client-certificate` is ignored.
- The `Host` override lives in the adapter's pool keywords, which every request shares. It is overwritten or cleared on each request (kubesession.py:43-49); `NoHostnameLeak` proves that nothing from one request survives into the next.

## Model

| member | source | states |
|---|---|---|
| Text.ReplaceAll | kubesession.py:35 | `str.replace`: replacing the pattern by itself gives the string back, and a replacement as long as the pattern keeps the length |
| Text.ReplaceAllChars | kubesession.py:35 | `str.replace` introduces no character that is in neither the string nor the replacement |
| Text.ReplaceAllAbsent | kubesession.py:35 | `str.replace` leaves a string in which the pattern never occurs unchanged |
| Text.ReplaceAllFirst | kubesession.py:35 | `str.replace` keeps the text before the first occurrence, puts the replacement there and resumes scanning after that occurrence |
| Text.ReplaceAllSkipsPrefix | kubesession.py:35 | a prefix with no character that could start the pattern is copied through, and the rest is rewritten on its own |
| Text.ReplaceAllLeading | kubesession.py:35 | a string that opens with the pattern, followed by text that cannot start it, becomes the replacement followed by that text |
| KubeAdapter.RewriteUrl | kubesession.py:35 | the rewritten URL is built from the URL, the server and the namespace alone: it holds no other character |
| KubeAdapter.RewriteUrlUnchanged | kubesession.py:35 | a URL containing neither `kube://` nor `$$NAMESPACE$$` is sent unchanged |
| KubeAdapter.RewriteKubePath | kubesession.py:35 | `kube://` + path goes to server + path when the path holds no further `kube://` and the joined URL holds no placeholder (the requests of kubesession_test.py:43-44 start with the server) |
| KubeAdapter.RewriteKubeNamespacePath | kubesession.py:35 | `kube://` + before + `$$NAMESPACE$$` + after goes to server + before + namespace + after, when `kube://` appears only at the start, the placeholder first appears where it is written in the joined URL, and the text after it has no further placeholder: the scheme is replaced first, then the placeholder |
| KubeAdapter.RewriteNamespaceExpansion | kubesession_test.py:133-134 | `kube:///api/v1/$$NAMESPACE$$/pods` is rewritten to `<server>/api/v1/<namespace>/pods` |
| Text.LowerChar | kubesession.py:39 | lower-casing a character never yields an upper-case ASCII letter, changes exactly the upper-case ones, and moves them by 32 code points |
| Text.Lower | kubesession.py:39 | the ASCII lower-casing keeps the length and lower-cases character by character |
| KubeAdapter.IsHostName | kubesession.py:39 | only four-character header names can lower-case to `host` |
| KubeAdapter.IsHostNameSpellings | kubesession.py:37-39 | a header name counts as Host exactly when it is `host` in any mix of upper and lower case |
| KubeAdapter.FindHost | kubesession.py:38-41 | None exactly when no header name lowercases to `host`; otherwise the value of the first such header in iteration order |
| KubeAdapter.FindHostFirstWins | kubesession.py:38-41 | when header `i` is the first Host header, its value is the one the loop finds and later ones are ignored (a property of the loop; real request headers hold at most one) |
| KubeAdapter.WithAssertHostname | kubesession.py:43-49 | `assert_hostname` is present exactly when the Host value is non-empty, and then equals it; an earlier value is otherwise removed; every other pool keyword is unchanged |
| KubeAdapter.NoHostnameLeak | kubesession.py:45-49 | the pool keywords after two requests equal those the second request would produce alone, so nothing leaks from the first |
| KubeAdapter.HostHeaderPinsHostname | kubesession.py:38-46 | a request whose only Host header is `Host: <name>`, with the name non-empty, makes the pool check certificates against that name |
| KubeAdapter.Request.constructor | kubesession.py:35-40 | a request holds the URL that `send` rewrites and the headers, in iteration order, that it scans |
| KubeAdapter.KubernetesAdapter.constructor | kubesession.py:29-32 | the adapter keeps the server and namespace it is given and starts from the transport's pool keywords |
| KubeAdapter.KubernetesAdapter.Send | kubesession.py:34-51 | the request URL becomes the rewrite of the old one, and `poolKw` becomes the old keywords updated by the first Host header's value |
| KubeSession.Matching | kubesession.py:58-61 | the comprehension keeps only entries of the list that carry the name |
| KubeSession.MatchingHead | kubesession.py:58-61 | the comprehension is empty exactly when no entry has the name, and otherwise starts with the first entry that has it |
| KubeSession.Lookup | kubesession.py:58-61 | `[...][0]` fails exactly when no entry has the name, and otherwise yields the first entry with it |
| KubeSession.SelectedContext | kubesession.py:55-56 | the caller's context name is used whenever one is passed, even an empty one; none is chosen only when neither the caller nor `current-context` gives one |
| KubeSession.ResolveConfig | kubesession.py:55-63 | the context is the caller's or else `current-context`, whose absence is an error; context, cluster and (if named) user are each the first entry with their name, and a missing one is an error naming it; a context without `user` gets the empty user |
| KubeSession.GetKubeSession | kubesession.py:54-95 | lookup errors surface unchanged; after them the errors are a certificate without a key and, for an https server checked with verification on, a URL `urlparse` rejects; the adapter's server and namespace (`current_namespace` defaults to `default`, `certificate_name` to `kubernetes`); cert and bearer token set independently; TLS settings change only for https: insecure gives `verify = False` and no Host, otherwise an IP host gets `Host: certificate_name` and a CA path becomes `verify` |

## Left out

- The transport: `super().send`, the response, `HTTPAdapter`/urllib3 pool internals and TLS handshakes are library code. `Send` stops where the request is handed to the transport.
- The initial pool keywords of `HTTPAdapter` (`maxsize`, `block`, and so on) are library values. The constructor takes them as a parameter. The model keeps all pool keyword values as strings.
- `Session.mount` prefix dispatch is not modelled. `Send` is applied to whatever request it is given. The session record records the adapter's server and namespace; the adapter object is built from them with the constructor.
- Sending through the session is not modelled. That path merges the session headers into each request, and `requests`' default headers (`User-Agent`, `Accept`, and so on) come with them. `Session.headers` holds only the headers `get_kube_session` adds.
- `urlparse` and `ipaddress.ip_address(parts.hostname)` are library parsers. They are the parameters `serverUrlParses` and `hostIsIpLiteral`, applied to the server URL. A `urlparse` failure is the error `InvalidServerUrl`. Any failure inside the `try` counts as "not an IP".
- Request headers are a `requests` `CaseInsensitiveDict`, so a real request holds at most one header whose name lower-cases to `host`. The model takes any sequence of headers, which is more general. With duplicates, the scan keeps the first one in iteration order.
- Case folding: `Text.Lower` folds only ASCII letters. No other character lowercases to a letter of `host`, so the Host test is unaffected.
- `str.replace` with an empty pattern is not modelled. The adapter's patterns are constants and never empty.
- The `print` debug output (kubesession.py:80, 87) is not modelled.
- Structurally broken configs are not modelled. A config may lack the `contexts`/`clusters`/`users` lists, an entry's `name`, or a `cluster`/`server` key. Values may be `None` or non-strings. The datatypes require those keys and string values.
- `insecure-skip-tls-verify` is a boolean, absent meaning false. Python tests the truthiness of any YAML value.
- Concurrent requests sharing `connection_pool_kw` are not modelled; `Send` is sequential.
- Basic auth is only a TODO in the source and has no behaviour to model.
