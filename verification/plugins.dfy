/** The gateway plugins a configuration can enable: their integer codes as
    stored in the local database and the labels the gateway knows them by
    (kong_admin/enums.py). */
module Plugins {
  import opened Tables

  /** One constructor per plugin. `ReponseTransformer` keeps the misspelling
      of the source's member name; its label is spelt correctly. */
  datatype Plugin =
    | Ssl
    | KeyAuthentication
    | BasicAuthentication
    | Oauth2Authentication
    | RateLimiting
    | TcpLog
    | UdpLog
    | FileLog
    | HttpLog
    | Cors
    | RequestTransformer
    | ReponseTransformer
    | RequestSizeLimiting

  /** The default plugin of a new configuration record. */
  const Default: Plugin := RequestSizeLimiting

  /** The integer code stored in the database column. */
  function Code(p: Plugin): (c: int)
    ensures 1 <= c <= 13
  {
    match p
    case Ssl => 1
    case KeyAuthentication => 2
    case BasicAuthentication => 3
    case Oauth2Authentication => 4
    case RateLimiting => 5
    case TcpLog => 6
    case UdpLog => 7
    case FileLog => 8
    case HttpLog => 9
    case Cors => 10
    case RequestTransformer => 11
    case ReponseTransformer => 12
    case RequestSizeLimiting => 13
  }

  /** The plugin a stored code denotes; codes outside the enumeration denote none. */
  function FromCode(c: int): (r: Option<Plugin>)
    ensures r.Some? <==> 1 <= c <= 13
    ensures r.Some? ==> Code(r.value) == c
  {
    if c == 1 then Some(Ssl)
    else if c == 2 then Some(KeyAuthentication)
    else if c == 3 then Some(BasicAuthentication)
    else if c == 4 then Some(Oauth2Authentication)
    else if c == 5 then Some(RateLimiting)
    else if c == 6 then Some(TcpLog)
    else if c == 7 then Some(UdpLog)
    else if c == 8 then Some(FileLog)
    else if c == 9 then Some(HttpLog)
    else if c == 10 then Some(Cors)
    else if c == 11 then Some(RequestTransformer)
    else if c == 12 then Some(ReponseTransformer)
    else if c == 13 then Some(RequestSizeLimiting)
    else None
  }

  /** The name under which the gateway knows the plugin (the `labels` table). */
  function Label(p: Plugin): string
  {
    match p
    case Ssl => "ssl"
    case KeyAuthentication => "key-authentication"
    case BasicAuthentication => "basic-authentication"
    case Oauth2Authentication => "oauth2-authentication"
    case RateLimiting => "rate-limiting"
    case TcpLog => "tcp-log"
    case UdpLog => "udp-log"
    case FileLog => "file-log"
    case HttpLog => "http-log"
    case Cors => "cors"
    case RequestTransformer => "request-transformer"
    case ReponseTransformer => "response-transformer"
    case RequestSizeLimiting => "request-size-limiting"
  }

  /** The label of a stored code, as `Plugins.label(code)` looks it up. */
  function LabelOfCode(c: int): (r: Option<string>)
    ensures r.Some? <==> 1 <= c <= 13
  {
    match FromCode(c)
    case None => None
    case Some(p) => Some(Label(p))
  }

  /** The plugin a gateway label names, if any: the inverse of `Label`. */
  function FromLabel(s: string): (r: Option<Plugin>)
    ensures r.Some? ==> Label(r.value) == s
  {
    if s == "ssl" then Some(Ssl)
    else if s == "key-authentication" then Some(KeyAuthentication)
    else if s == "basic-authentication" then Some(BasicAuthentication)
    else if s == "oauth2-authentication" then Some(Oauth2Authentication)
    else if s == "rate-limiting" then Some(RateLimiting)
    else if s == "tcp-log" then Some(TcpLog)
    else if s == "udp-log" then Some(UdpLog)
    else if s == "file-log" then Some(FileLog)
    else if s == "http-log" then Some(HttpLog)
    else if s == "cors" then Some(Cors)
    else if s == "request-transformer" then Some(RequestTransformer)
    else if s == "response-transformer" then Some(ReponseTransformer)
    else if s == "request-size-limiting" then Some(RequestSizeLimiting)
    else None
  }

  /** A label character: a lower-case ASCII letter, a digit or a hyphen. */
  predicate IsLabelChar(c: char)
  {
    ('a' <= c <= 'z') || ('0' <= c <= '9') || c == '-'
  }

  /** Codes and plugins are in one-to-one correspondence with 1..13. */
  lemma CodesRoundTrip(p: Plugin, c: int)
    ensures FromCode(Code(p)) == Some(p)
    ensures 1 <= c <= 13 ==> FromCode(c).Some? && Code(FromCode(c).value) == c
    ensures !(1 <= c <= 13) ==> LabelOfCode(c) == None
  {
    match p
    case Ssl =>
    case KeyAuthentication =>
    case BasicAuthentication =>
    case Oauth2Authentication =>
    case RateLimiting =>
    case TcpLog =>
    case UdpLog =>
    case FileLog =>
    case HttpLog =>
    case Cors =>
    case RequestTransformer =>
    case ReponseTransformer =>
    case RequestSizeLimiting =>
  }

  /** Every label names its plugin back, so no two plugins share a label. */
  lemma LabelsInjective(p: Plugin, q: Plugin)
    ensures FromLabel(Label(p)) == Some(p)
    ensures Label(p) == Label(q) ==> p == q
  {
    match p
    case Ssl =>
    case KeyAuthentication =>
    case BasicAuthentication =>
    case Oauth2Authentication =>
    case RateLimiting =>
    case TcpLog =>
    case UdpLog =>
    case FileLog =>
    case HttpLog =>
    case Cors =>
    case RequestTransformer =>
    case ReponseTransformer =>
    case RequestSizeLimiting =>
  }

  /** A gateway label: non-empty, made only of lower-case letters, digits and hyphens. */
  predicate IsLabelWord(s: string)
  {
    |s| > 0 && forall i :: 0 <= i < |s| ==> IsLabelChar(s[i])
  }

  lemma ShortLabelWords()
    ensures IsLabelWord("ssl") && IsLabelWord("cors") && IsLabelWord("rate-limiting")
    ensures IsLabelWord("tcp-log") && IsLabelWord("udp-log") && IsLabelWord("file-log") && IsLabelWord("http-log")
  {
  }

  lemma AuthenticationLabelWords()
    ensures IsLabelWord("key-authentication") && IsLabelWord("basic-authentication")
    ensures IsLabelWord("oauth2-authentication")
  {
  }

  lemma TransformerLabelWords()
    ensures IsLabelWord("request-transformer") && IsLabelWord("response-transformer")
    ensures IsLabelWord("request-size-limiting")
  {
  }

  /** Every label is non-empty and made only of lower-case letters, digits and hyphens. */
  lemma LabelAlphabet(p: Plugin)
    ensures IsLabelWord(Label(p))
  {
    ShortLabelWords();
    AuthenticationLabelWords();
    TransformerLabelWords();
  }

  /** The misspelt member 12 is labelled `response-transformer`, and the
      default plugin is code 13, `request-size-limiting`. */
  lemma NotableLabels()
    ensures Code(ReponseTransformer) == 12 && LabelOfCode(12) == Some("response-transformer")
    ensures Code(Default) == 13 && LabelOfCode(13) == Some("request-size-limiting")
  {
  }
}
