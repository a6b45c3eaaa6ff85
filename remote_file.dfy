/**
 * Chef::Provider::File::Content::RemoteFile
 * (lib/chef/provider/file/content/remote_file.rb): skip the download when the
 * current checksum already matches, otherwise try each mirror in order.
 * URI parsing and the HTTP, FTP and local-file transports are oracles passed
 * in as functions.
 */
module RemoteFile {
  import opened Wrappers
  import opened FileSystem

  /** The parts of a parsed URI the provider looks at. */
  datatype Uri = Uri(scheme: string, user: Option<string>, password: Option<string>, host: string, path: string)

  /** Exceptions, by the way `try_multiple_sources` rescues them. */
  datatype FetchError =
    | ArgumentError(message: string)   // re-raised at once
    | StandardError(message: string)   // `rescue => e`: try the next mirror
    | Exception(message: string)       // not a StandardError: never rescued

  /** The transport `grab_file_from_uri` picks. */
  datatype Fetcher = Http | Ftp | LocalFile

  type Parser = string -> Result<Uri, string>
  type Transport = (Fetcher, Uri) -> Result<Content, FetchError>

  const UnsupportedScheme: string := "Invalid uri. Only http(s), ftp, and file are currently supported"
  /** What `URI.parse(nil)` raises once the list is used up before the first try. */
  const NilSourceMessage: string := "bad URI(is not URI?): nil"
  const PasswordMask: string := "********"

  function LowerChar(c: char): (r: char)
  {
    if 'A' <= c <= 'Z' then (c as int + 32) as char else c
  }

  /** ASCII down-casing, as the URI library does when it picks a class for a scheme. */
  function Lower(s: string): (r: string)
    ensures |r| == |s| && forall k :: 0 <= k < |s| ==> r[k] == LowerChar(s[k])
  {
    seq(|s|, k requires 0 <= k < |s| => LowerChar(s[k]))
  }

  /** `URI::HTTP === uri` covers http and https; `URI::FTP === uri` ftp; "file" is compared as stored. */
  function SchemeFetcher(scheme: string): (r: Option<Fetcher>)
    ensures r == Some(Http) <==> Lower(scheme) == "http" || Lower(scheme) == "https"
    ensures r == Some(Ftp) <==> Lower(scheme) == "ftp"
    ensures r == Some(LocalFile) <==> scheme == "file" && Lower(scheme) != "http" && Lower(scheme) != "https" && Lower(scheme) != "ftp"
  {
    if Lower(scheme) == "http" || Lower(scheme) == "https" then Some(Http)
    else if Lower(scheme) == "ftp" then Some(Ftp)
    else if scheme == "file" then Some(LocalFile)
    else None
  }

  /** `grab_file_from_uri` */
  function GrabFileFromUri(uri: Uri, fetch: Transport): (r: Result<Content, FetchError>)
  {
    match SchemeFetcher(uri.scheme)
    case None => Failure(ArgumentError(UnsupportedScheme))
    case Some(f) => fetch(f, uri)
  }

  /** `uri.to_s` for the parts modelled. */
  function ToS(u: Uri): (r: string)
  {
    var userinfo :=
      match u.user
      case None => ""
      case Some(name) => name + (match u.password case None => "" case Some(p) => ":" + p) + "@";
    u.scheme + "://" + userinfo + u.host + u.path
  }

  /** `uri.password = "********" if uri.userinfo`: userinfo is set exactly when a user is. */
  function Mask(u: Uri): (r: Uri)
    ensures r.scheme == u.scheme && r.user == u.user && r.host == u.host && r.path == u.path
    ensures r.password == if u.user.Some? then Some(PasswordMask) else u.password
  {
    if u.user.Some? then u.(password := Some(PasswordMask)) else u
  }

  /** One pass through the `begin` block: parse the source, then fetch it. */
  function Attempt(source: Option<string>, parse: Parser, fetch: Transport): (r: Result<(Content, Uri), FetchError>)
  {
    match source
    case None => Failure(StandardError(NilSourceMessage))
    case Some(s) =>
      match parse(s)
      case Failure(m) => Failure(StandardError(m))   // URI::InvalidURIError is not an ArgumentError
      case Success(uri) =>
        match GrabFileFromUri(uri, fetch)
        case Failure(e) => Failure(e)
        case Success(file) => Success((file, uri))
  }

  /** Whether an attempt's failure sends `try_multiple_sources` on to the next mirror. */
  predicate Retries(a: Result<(Content, Uri), FetchError>)
  {
    a.Failure? && a.error.StandardError?
  }

  /** What a successful attempt reports: the raw file and the masked URI string. */
  function Reported(file: Content, uri: Uri): (r: (Content, string))
  {
    (file, ToS(Mask(uri)))
  }

  /** `try_multiple_sources` from the current source on, with `rest` still to shift. */
  function TryFrom(source: Option<string>, rest: seq<string>, parse: Parser, fetch: Transport): (r: Result<(Content, string), FetchError>)
    decreases |rest|
  {
    var a := Attempt(source, parse, fetch);
    if a.Success? then Success(Reported(a.value.0, a.value.1))
    else if !Retries(a) || |rest| == 0 then Failure(a.error)
    else TryFrom(Some(rest[0]), rest[1..], parse, fetch)
  }

  /** `try_multiple_sources(sources)` */
  function TrySources(sources: seq<string>, parse: Parser, fetch: Transport): (r: Result<(Content, string), FetchError>)
  {
    if |sources| == 0 then TryFrom(None, [], parse, fetch) else TryFrom(Some(sources[0]), sources[1..], parse, fetch)
  }

  /** `try_multiple_sources`: `shift` on a copy of the list and `retry` until a fetch succeeds or must be raised. */
  method TryMultipleSources(sources: array<string>, parse: Parser, fetch: Transport) returns (r: Result<(Content, string), FetchError>)
    ensures r == TrySources(sources[..], parse, fetch)
  {
    var pending := sources[..];   // sources.dup
    var source: Option<string> := None;
    if |pending| > 0 {
      source := Some(pending[0]);
      pending := pending[1..];
    }
    while true
      invariant TryFrom(source, pending, parse, fetch) == TrySources(sources[..], parse, fetch)
      decreases |pending|
    {
      var a := Attempt(source, parse, fetch);
      if a.Success? {
        var (file, uri) := a.value;
        var uriString := ToS(Mask(uri));
        return Success((file, uriString));
      }
      if !a.error.StandardError? || |pending| == 0 {
        return Failure(a.error);
      }
      source := Some(pending[0]);
      pending := pending[1..];
    }
  }

  /** Every source before index k failed with an error that is retried. */
  predicate RetriedUpTo(sources: seq<string>, k: nat, parse: Parser, fetch: Transport)
    requires k <= |sources|
  {
    forall j :: 0 <= j < k ==> Retries(Attempt(Some(sources[j]), parse, fetch))
  }

  /** Sources are tried in list order: after k retried failures the outcome is that of source k onwards. */
  lemma {:induction false} TriesInOrder(sources: seq<string>, k: nat, parse: Parser, fetch: Transport)
    requires k < |sources| && RetriedUpTo(sources, k, parse, fetch)
    ensures TrySources(sources, parse, fetch) == TryFrom(Some(sources[k]), sources[k + 1..], parse, fetch)
  {
    if k > 0 {
      TriesInOrder(sources, k - 1, parse, fetch);
      assert Retries(Attempt(Some(sources[k - 1]), parse, fetch));
      assert sources[k..][1..] == sources[k + 1..];
    }
  }

  /** The first source that is fetched wins, with its URI masked. */
  lemma FirstSuccessWins(sources: seq<string>, k: nat, parse: Parser, fetch: Transport)
    requires k < |sources| && RetriedUpTo(sources, k, parse, fetch)
    requires Attempt(Some(sources[k]), parse, fetch).Success?
    ensures var a := Attempt(Some(sources[k]), parse, fetch);
      TrySources(sources, parse, fetch) == Success(Reported(a.value.0, a.value.1))
  {
    TriesInOrder(sources, k, parse, fetch);
  }

  /** An ArgumentError (or any exception that is not a StandardError) stops the search: later sources are never tried. */
  lemma AbortsOnArgumentError(sources: seq<string>, k: nat, parse: Parser, fetch: Transport)
    requires k < |sources| && RetriedUpTo(sources, k, parse, fetch)
    requires var a := Attempt(Some(sources[k]), parse, fetch); a.Failure? && !a.error.StandardError?
    ensures TrySources(sources, parse, fetch) == Failure(Attempt(Some(sources[k]), parse, fetch).error)
  {
    TriesInOrder(sources, k, parse, fetch);
  }

  /** When every source fails with a retried error, the last one's error is raised. */
  lemma LastErrorRaised(sources: seq<string>, parse: Parser, fetch: Transport)
    requires |sources| > 0 && RetriedUpTo(sources, |sources|, parse, fetch)
    ensures TrySources(sources, parse, fetch) == Failure(Attempt(Some(sources[|sources| - 1]), parse, fetch).error)
  {
    TriesInOrder(sources, |sources| - 1, parse, fetch);
  }

  /** An empty source list raises the error of parsing nil. */
  lemma EmptySourcesRaise(parse: Parser, fetch: Transport)
    ensures TrySources([], parse, fetch) == Failure(StandardError(NilSourceMessage))
  {
  }

  lemma {:induction false} TryFromSucceedsOnlyFromASource(source: string, rest: seq<string>, parse: Parser, fetch: Transport)
    requires TryFrom(Some(source), rest, parse, fetch).Success?
    ensures var sources := [source] + rest;
      exists k :: 0 <= k < |sources| && RetriedUpTo(sources, k, parse, fetch) && Attempt(Some(sources[k]), parse, fetch).Success?
    decreases |rest|
  {
    var sources := [source] + rest;
    var a := Attempt(Some(source), parse, fetch);
    if a.Success? {
      assert RetriedUpTo(sources, 0, parse, fetch);
      assert Attempt(Some(sources[0]), parse, fetch).Success?;
    } else {
      TryFromSucceedsOnlyFromASource(rest[0], rest[1..], parse, fetch);
      assert [rest[0]] + rest[1..] == rest;
      var k :| 0 <= k < |rest| && RetriedUpTo(rest, k, parse, fetch) && Attempt(Some(rest[k]), parse, fetch).Success?;
      assert sources[k + 1] == rest[k];
      assert RetriedUpTo(sources, k + 1, parse, fetch) by {
        forall j | 0 <= j < k + 1 ensures Retries(Attempt(Some(sources[j]), parse, fetch)) {
          if j > 0 { assert sources[j] == rest[j - 1]; }
        }
      }
    }
  }

  /** A successful result always comes from some source all of whose predecessors failed and were retried. */
  lemma SuccessComesFromFirstFetchedSource(sources: seq<string>, parse: Parser, fetch: Transport)
    requires TrySources(sources, parse, fetch).Success?
    ensures exists k :: 0 <= k < |sources| && RetriedUpTo(sources, k, parse, fetch) && Attempt(Some(sources[k]), parse, fetch).Success?
  {
    assert |sources| > 0;
    TryFromSucceedsOnlyFromASource(sources[0], sources[1..], parse, fetch);
    assert [sources[0]] + sources[1..] == sources;
  }

  /** A source with an unsupported scheme raises ArgumentError, so it ends the search. */
  lemma UnsupportedSchemeAborts(sources: seq<string>, k: nat, parse: Parser, fetch: Transport)
    requires k < |sources| && RetriedUpTo(sources, k, parse, fetch)
    requires parse(sources[k]).Success? && SchemeFetcher(parse(sources[k]).value.scheme).None?
    ensures TrySources(sources, parse, fetch) == Failure(ArgumentError(UnsupportedScheme))
  {
    TriesInOrder(sources, k, parse, fetch);
  }

  /** The reported URI string does not depend on the real password once a user is present. */
  lemma ReportedUriHidesPassword(u: Uri, p1: Option<string>, p2: Option<string>)
    requires u.user.Some?
    ensures ToS(Mask(u.(password := p1))) == ToS(Mask(u.(password := p2)))
    ensures ToS(Mask(u.(password := p1))) == u.scheme + "://" + u.user.value + ":" + PasswordMask + "@" + u.host + u.path
  {
  }

  /** `^` in `/^#{Regexp.escape(desired)}/` anchors at the start of any line of the current checksum. */
  predicate PrefixOfSomeLine(desired: string, current: string)
  {
    exists i | 0 <= i <= |current| :: (i == 0 || current[i - 1] == '\n') && desired <= current[i..]
  }

  /** `current_resource_matches_target_checksum?` */
  predicate MatchesTargetChecksum(desired: Option<string>, current: Option<string>)
  {
    desired.Some? && current.Some? && PrefixOfSomeLine(desired.value, current.value)
  }

  /** For a single-line checksum the test is a plain prefix test. */
  lemma SingleLineMatchIsPrefix(desired: string, current: string)
    requires forall k :: 0 <= k < |current| ==> current[k] != '\n'
    ensures MatchesTargetChecksum(Some(desired), Some(current)) <==> desired <= current
  {
    if desired <= current {
      assert current[0..] == current;
    }
  }

  /** `file_for_provider`: nil when the checksum already matches, else the raw file of the first source that works. */
  method FileForProvider(desired: Option<string>, current: Option<string>, sources: array<string>, parse: Parser, fetch: Transport)
    returns (r: Result<Option<Content>, FetchError>)
    ensures r == Success(None) <==> MatchesTargetChecksum(desired, current)
    ensures MatchesTargetChecksum(desired, current) || r == match TrySources(sources[..], parse, fetch)
      case Success(found) => Success(Some(found.0))
      case Failure(e) => Failure(e)
  {
    if MatchesTargetChecksum(desired, current) {
      return Success(None);
    }
    var fetched := TryMultipleSources(sources, parse, fetch);
    match fetched {
      case Success(found) =>
        var (rawFile, rawFileSource) := found;
        r := Success(Some(rawFile));
      case Failure(e) =>
        r := Failure(e);
    }
  }
}
