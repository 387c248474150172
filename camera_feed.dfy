/**
 * The feed test script's choice of capture source: an explicit stream URL, else a
 * local device index, else a URL built from a camera alias, a protocol, an
 * optional port and a stream path.
 */
module CameraFeed {
  import opened Wrappers
  import opened Text
  import opened Constants

  /** The protocols the feed test script accepts for a built URL. */
  datatype Protocol = Rtsp | Http | Https

  /** What OpenCV is asked to open: a URL or a local device number. */
  datatype Source = Url(url: string) | Device(index: int)

  /** The one way resolution fails: the alias is not a key of the host table. */
  datatype FeedError = UnknownCamera(alias: string)

  function ProtocolName(p: Protocol): string {
    match p
    case Rtsp => "rtsp"
    case Http => "http"
    case Https => "https"
  }

  /** The port used when none is given. */
  function DefaultPort(p: Protocol): int {
    if p == Rtsp then 8554 else 80
  }

  predicate IsSlash(c: char) {
    c == '/'
  }

  /** `lstrip("/")`. */
  function SanitizedPath(path: string): string {
    TrimLeft(path, IsSlash)
  }

  /** `protocol://host`, before any port or path. */
  function Origin(host: string, protocol: Protocol): string {
    ProtocolName(protocol) + "://" + host
  }

  /** A zero port is falsy and leaves the URL without a port. */
  function PortPart(port: int): string {
    if port == 0 then "" else ":" + RenderInt(port)
  }

  /** Nothing for an empty sanitized path, otherwise "/" and that path. */
  function PathPart(path: string): string {
    var sanitized := SanitizedPath(path);
    if sanitized == "" then "" else "/" + sanitized
  }

  /** The URL built from a host: origin, then the port part, then the path, if any. */
  function StreamUrl(host: string, protocol: Protocol, port: Option<int>, path: string): (r: string)
    ensures |Origin(host, protocol)| <= |r| && r[..|Origin(host, protocol)|] == Origin(host, protocol)
  {
    Origin(host, protocol) + PortPart(port.GetOr(DefaultPort(protocol))) + PathPart(path)
  }

  /** The three parts of a concatenation can be cut out of it again. */
  lemma PartsOfThree(a: string, b: string, c: string)
    ensures |a + b + c| == |a| + |b| + |c|
    ensures (a + b + c)[|a|..|a| + |b|] == b
    ensures (a + b + c)[|a| + |b|..] == c
  {
  }

  /**
   * `resolve_source`: a non-empty stream URL wins over everything, then a
   * device index, and only then is the alias looked up to build a URL.
   */
  function ResolveSource(streamUrl: Option<string>, deviceIndex: Option<int>, camera: string,
                         protocol: Protocol, port: Option<int>, streamPath: string): (r: Result<Source, FeedError>)
    ensures streamUrl.Some? && streamUrl.value != "" ==> r == Ok(Url(streamUrl.value))
    ensures (streamUrl.None? || streamUrl.value == "") && deviceIndex.Some? ==>
      r == Ok(Device(deviceIndex.value))
    ensures (streamUrl.None? || streamUrl.value == "") && deviceIndex.None? ==>
      && (r.Err? <==> camera !in CAMERA_HOSTS)
      && (r.Err? ==> r.error == UnknownCamera(camera))
      && (r.Ok? ==> r == Ok(Url(StreamUrl(CAMERA_HOSTS[camera], protocol, port, streamPath))))
  {
    if streamUrl.Some? && streamUrl.value != "" then Ok(Url(streamUrl.value))
    else if deviceIndex.Some? then Ok(Device(deviceIndex.value))
    else if camera !in CAMERA_HOSTS then Err(UnknownCamera(camera))
    else Ok(Url(StreamUrl(CAMERA_HOSTS[camera], protocol, port, streamPath)))
  }

  /** With no port given, RTSP uses 8554 and HTTP and HTTPS use 80. */
  lemma AbsentPortIsTheDefault(host: string, protocol: Protocol, path: string)
    ensures protocol == Rtsp ==> StreamUrl(host, protocol, None, path) == StreamUrl(host, protocol, Some(8554), path)
    ensures protocol != Rtsp ==> StreamUrl(host, protocol, None, path) == StreamUrl(host, protocol, Some(80), path)
  {
  }

  /**
   * The port part reads back: it is empty exactly for port 0, and otherwise
   * ":" followed by digits that parse as the port, with no slash among them.
   */
  lemma PortPartReadsBack(port: int)
    ensures port == 0 <==> PortPart(port) == ""
    ensures port != 0 ==> PortPart(port)[0] == ':' && ParseInt(PortPart(port)[1..]) == Some(port)
    ensures forall i :: 0 <= i < |PortPart(port)| ==> PortPart(port)[i] != '/'
  {
    if port != 0 {
      PortDigitsParse(port);
      DecimalHasNoSlash(port);
      assert PortPart(port) == ":" + RenderInt(port);
    }
  }

  lemma PortDigitsParse(port: int)
    requires port != 0
    ensures PortPart(port)[0] == ':' && ParseInt(PortPart(port)[1..]) == Some(port)
  {
    var digits := RenderInt(port);
    assert PortPart(port) == ":" + digits;
    assert PortPart(port)[1..] == digits;
    ParseRenderInt(port);
  }

  lemma DecimalHasNoSlash(n: int)
    ensures forall i :: 0 <= i < |RenderInt(n)| ==> RenderInt(n)[i] != '/'
  {
    var m := if n < 0 then -n else n;
    var d := RenderNat(m);
    assert forall i :: 0 <= i < |d| ==> IsDigit(d[i]);
    if n < 0 {
      assert RenderInt(n) == "-" + d;
      forall i | 0 <= i < |RenderInt(n)| ensures RenderInt(n)[i] != '/' {
        if i > 0 {
          assert RenderInt(n)[i] == d[i - 1];
        }
      }
    } else {
      assert RenderInt(n) == d;
    }
  }

  /** The port part sits right after the origin and is followed by nothing or a slash. */
  lemma PortFollowsHost(host: string, protocol: Protocol, port: int, path: string)
    ensures var url := StreamUrl(host, protocol, Some(port), path);
      var o := |Origin(host, protocol)|;
      var e := o + |PortPart(port)|;
      && e <= |url| && url[o..e] == PortPart(port)
      && (e == |url| || url[e] == '/')
  {
    var rest := PathPart(path);
    PartsOfThree(Origin(host, protocol), PortPart(port), rest);
    if rest != "" {
      assert rest[0] == '/';
    }
  }

  /**
   * The path part: nothing when the path is only slashes, otherwise "/" and the
   * path with its leading slashes (and only those) removed.
   */
  lemma PathPartDropsLeadingSlashes(path: string)
    ensures (forall i :: 0 <= i < |path| ==> path[i] == '/') ==> PathPart(path) == ""
    ensures (exists i :: 0 <= i < |path| && path[i] != '/') ==>
      exists k :: 0 <= k < |path|
        && PathPart(path) == "/" + path[k..]
        && path[k] != '/'
        && (forall i :: 0 <= i < k ==> path[i] == '/')
  {
    var sanitized := SanitizedPath(path);
    var k := |path| - |sanitized|;
    TrimLeftIsSuffix(path, IsSlash);
    TrimLeftDrops(path, IsSlash);
    TrimLeftStops(path, IsSlash);
    assert sanitized == path[k..];
    if sanitized == "" {
      assert forall i :: 0 <= i < |path| ==> path[i] == '/';
    } else {
      assert path[k] == sanitized[0] != '/';
      assert forall i :: 0 <= i < k ==> path[i] == '/';
    }
  }

  /** The path part comes last: the URL is the one built without a path, followed by it. */
  lemma PathFollowsPort(host: string, protocol: Protocol, port: Option<int>, path: string)
    ensures StreamUrl(host, protocol, port, path) == StreamUrl(host, protocol, port, "") + PathPart(path)
  {
    assert PathPart("") == "";
    var pre := Origin(host, protocol) + PortPart(port.GetOr(DefaultPort(protocol)));
    assert pre + "" == pre;
  }

  /** Any number of leading slashes on the stream path gives the same URL. */
  lemma {:induction false} LeadingSlashesIgnored(host: string, protocol: Protocol, port: Option<int>,
                                                 slashes: nat, path: string)
    ensures StreamUrl(host, protocol, port, Slashes(slashes) + path) == StreamUrl(host, protocol, port, path)
  {
    if slashes > 0 {
      var p := Slashes(slashes) + path;
      assert p[0] == '/' && p[1..] == Slashes(slashes - 1) + path;
      assert PathPart(p) == PathPart(p[1..]);
      LeadingSlashesIgnored(host, protocol, port, slashes - 1, path);
    } else {
      assert Slashes(0) + path == path;
    }
  }

  function Slashes(n: nat): (r: string)
    ensures |r| == n && forall i :: 0 <= i < n ==> r[i] == '/'
  {
    if n == 0 then "" else "/" + Slashes(n - 1)
  }
}
