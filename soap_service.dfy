/**
 * The SOAP side of the Python ONVIF server (onvif_server_ws_auth.py): the fault document, the
 * extraction of the action from the first child of the SOAP Body, and the three service endpoints
 * (device, media, PTZ). Each endpoint authenticates first and then routes the action through a
 * closed table.
 *
 * Every successful dispatch hands its body to `create_soap_response`, which reads a name that is
 * not defined and raises, so the server answers 500. The model therefore stops at the body an
 * endpoint chose, and does not build a success envelope.
 */
module SoapService {
  import opened Wrappers
  import opened Text
  import opened XmlTree
  import opened WsSecurity
  import opened Decimal
  import opened Template

  const SOAP_ENV_NS := "http://www.w3.org/2003/05/soap-envelope"
  const MEDIA_NS := "http://www.onvif.org/ver10/media/wsdl"

  // ---------------------------------------------------------------- the fault document

  /** The literal parts of `create_soap_fault`'s template, around the code and the reason. */
  const FAULT_TEXT: seq<string> := [
    "<?xml version=\"1.0\" encoding=\"UTF-8\"?>\n" +
    "<soap:Envelope xmlns:soap=" +
    "\"http://www.w3.org/2003/05/soap-envelope\">\n" +
    "    <soap:Body>\n" +
    "        <soap:Fault>\n" +
    "            <soap:Code>\n" +
    "                <soap:Value>soap:",
    "</soap:Value>\n" +
    "            </soap:Code>\n" +
    "            <soap:Reason>\n" +
    "                <soap:Text xml:lang=\"en\">",
    "</soap:Text>\n" +
    "            </soap:Reason>\n" +
    "        </soap:Fault>\n" +
    "    </soap:Body>\n" +
    "</soap:Envelope>"
  ]

  /** `create_soap_fault`: a SOAP 1.2 fault whose Code Value is `soap:` + code. */
  function SoapFault(code: string, reason: string): string {
    Fill(FAULT_TEXT, [code, reason])
  }

  /** Reads the code and the reason back out of a fault document; None for any other text. */
  function ParseFault(xml: string): Option<(string, string)> {
    Unfill2(FAULT_TEXT, '<', xml)
  }

  /** A fault whose code and reason hold no `<` gives back its code and reason. */
  lemma ParseSoapFault(code: string, reason: string)
    requires '<' !in code && '<' !in reason
    ensures ParseFault(SoapFault(code, reason)) == Some((code, reason))
  {
    assert FAULT_TEXT[1][0] == '<' && FAULT_TEXT[2][0] == '<';
    Unfill2Fill(FAULT_TEXT, '<', code, reason);
  }

  /** Only fault documents parse: what ParseFault accepts is exactly SoapFault of what it returns. */
  lemma ParseFaultSound(xml: string)
    requires ParseFault(xml).Some?
    ensures SoapFault(ParseFault(xml).value.0, ParseFault(xml).value.1) == xml
  {
    Fill2Unfill(FAULT_TEXT, '<', xml);
  }

  /** The fault document opens with the XML declaration and closes the envelope. */
  lemma SoapFaultFrame(code: string, reason: string)
    ensures IsPrefix(FAULT_TEXT[0] + code, SoapFault(code, reason))
    ensures IsSuffix(FAULT_TEXT[2], SoapFault(code, reason))
  {
    FillStart(FAULT_TEXT, [code, reason]);
    FillEnd(FAULT_TEXT, [code, reason]);
  }

  /** What every endpoint answers a request that fails authentication (HTTP 401). */
  const AUTH_FAULT := SoapFault("Sender", "Authentication failed")

  lemma AuthFaultContent()
    ensures ParseFault(AUTH_FAULT) == Some(("Sender", "Authentication failed"))
  {
    ParseSoapFault("Sender", "Authentication failed");
  }

  // ---------------------------------------------------------------- the SOAP action

  /** What `parse_soap_request` returns: the action, its namespace and the element itself. */
  datatype SoapRequest = SoapRequest(action: Option<string>, namespace: string, element: Option<Element>)

  const NO_REQUEST := SoapRequest(None, "", None)

  /** Python's `s[1:]`, which is empty for an empty string. */
  function DropFirst(s: string): (r: string)
    ensures |s| > 0 ==> r == s[1..]
    ensures |s| == 0 ==> r == ""
  {
    if |s| == 0 then "" else s[1..]
  }

  /**
   * `parse_soap_request`: the first child of the first `soap:Body` below the root; its action is
   * the tag after the last `}` and its namespace the text between the leading character and the
   * first `}`. A tag without `}` is the action itself, with an empty namespace. No document, no
   * Body, or a Body without children gives no action.
   */
  function ParseSoapRequest(doc: Option<Element>): (r: SoapRequest)
    ensures r.action.None? <==> doc.None? || Find(doc.value, QName(SOAP_ENV_NS, "Body")).None? ||
                                 |Find(doc.value, QName(SOAP_ENV_NS, "Body")).value.children| == 0
    ensures r.action.Some? ==> r.element == Some(Find(doc.value, QName(SOAP_ENV_NS, "Body")).value.children[0])
    ensures r.action.Some? ==> '}' !in r.action.value && IsSuffix(r.action.value, r.element.value.tag)
    ensures r.action.None? ==> r == NO_REQUEST
  {
    if doc.None? then NO_REQUEST
    else match Find(doc.value, QName(SOAP_ENV_NS, "Body"))
      case None => NO_REQUEST
      case Some(body) =>
        if |body.children| == 0 then NO_REQUEST
        else
          var child := body.children[0];
          if '}' in child.tag then
            SoapRequest(Some(AfterLast(child.tag, '}')), DropFirst(BeforeFirst(child.tag, '}')), Some(child))
          else
            SoapRequest(Some(child.tag), "", Some(child))
  }

  /** A namespace-qualified tag splits back into its local name and its namespace. */
  lemma SplitQName(ns: string, local: string)
    requires '}' !in ns && '}' !in local
    ensures AfterLast(QName(ns, local), '}') == local
    ensures DropFirst(BeforeFirst(QName(ns, local), '}')) == ns
  {
    assert QName(ns, local) == ("{" + ns) + ['}'] + local;
    AfterLastJoin("{" + ns, local, '}');
    BeforeFirstJoin("{" + ns, local, '}');
    assert ("{" + ns)[1..] == ns;
  }

  /** A request whose first Body child is `{ns}local` yields the action `local` in namespace `ns`. */
  lemma ParseQualifiedAction(doc: Element, ns: string, local: string)
    requires '}' !in ns && '}' !in local
    requires Find(doc, QName(SOAP_ENV_NS, "Body")).Some?
    requires var body := Find(doc, QName(SOAP_ENV_NS, "Body")).value;
      |body.children| > 0 && body.children[0].tag == QName(ns, local)
    ensures ParseSoapRequest(Some(doc)).action == Some(local)
    ensures ParseSoapRequest(Some(doc)).namespace == ns
  {
    SplitQName(ns, local);
    assert QName(ns, local)[|ns| + 1] == '}';
  }

  /** A first Body child with an unqualified tag is the action itself, with no namespace. */
  lemma ParseBareAction(doc: Element)
    requires Find(doc, QName(SOAP_ENV_NS, "Body")).Some?
    requires var body := Find(doc, QName(SOAP_ENV_NS, "Body")).value;
      |body.children| > 0 && '}' !in body.children[0].tag
    ensures var body := Find(doc, QName(SOAP_ENV_NS, "Body")).value;
      ParseSoapRequest(Some(doc)) == SoapRequest(Some(body.children[0].tag), "", Some(body.children[0]))
  {
  }

  // ---------------------------------------------------------------- media profiles

  datatype VideoEncoder = VideoEncoder(encoding: string, width: int, height: int, framerate: int, bitrate: int)
  datatype AudioEncoder = AudioEncoder(encoding: string, bitrate: int, sampleRate: int)
  datatype ProfileData = ProfileData(token: string, name: string, video: VideoEncoder, audio: Option<AudioEncoder>)

  /** The MEDIA_PROFILES dictionary, as its (key, value) items in insertion order. */
  const MEDIA_PROFILES: seq<(string, ProfileData)> := [
    ("Profile_1", ProfileData("Profile_1", "Main Stream", VideoEncoder("H264", 1920, 1080, 30, 4000),
                              Some(AudioEncoder("AAC", 128, 48000)))),
    ("Profile_2", ProfileData("Profile_2", "Sub Stream", VideoEncoder("H264", 640, 480, 15, 1000), None))
  ]

  function Keys(items: seq<(string, ProfileData)>): (ks: seq<string>)
    ensures |ks| == |items| && forall i :: 0 <= i < |items| ==> ks[i] == items[i].0
  {
    if |items| == 0 then [] else [items[0].0] + Keys(items[1..])
  }

  /** `token in MEDIA_PROFILES`. */
  predicate IsProfileKey(token: string) {
    token in Keys(MEDIA_PROFILES)
  }

  /** The dictionary holds Profile_1 and then Profile_2; only the first has an audio encoder. */
  lemma MediaProfilesContent()
    ensures Keys(MEDIA_PROFILES) == ["Profile_1", "Profile_2"]
    ensures MEDIA_PROFILES[0].1.audio.Some? && MEDIA_PROFILES[1].1.audio.None?
  {
  }

  /** The literal parts of the video f-string of one `<trt:Profiles>` block, around its 11 fields. */
  const VIDEO_TEXT: seq<string> := [
    "\n            <trt:Profiles token=\"",
    "\" fixed=\"true\">\n" +
    "                <tt:Name>",
    "</tt:Name>\n" +
    "                <tt:VideoSourceConfiguration" +
    " token=\"VideoSource_1\">\n" +
    "                    <tt:Name>" +
    "Primary Video Source</tt:Name>\n" +
    "                    <tt:UseCount>1</tt:UseCount>\n" +
    "                    <tt:SourceToken>" +
    "VideoSource_1</tt:SourceToken>\n" +
    "                    <tt:Bounds x=\"0\" y=\"0\"" +
    " width=\"",
    "\" height=\"",
    "\"/>\n" +
    "                </tt:VideoSourceConfiguration>\n" +
    "                <tt:VideoEncoderConfiguration" +
    " token=\"VideoEncoder_",
    "\">\n" +
    "                    <tt:Name>",
    " Video Encoder</tt:Name>\n" +
    "                    <tt:UseCount>1</tt:UseCount>\n" +
    "                    <tt:Encoding>",
    "</tt:Encoding>\n" +
    "                    <tt:Resolution>\n" +
    "                        <tt:Width>",
    "</tt:Width>\n" +
    "                        <tt:Height>",
    "</tt:Height>\n" +
    "                    </tt:Resolution>\n" +
    "                    <tt:Quality>5</tt:Quality>\n" +
    "                    <tt:RateControl>\n" +
    "                        <tt:FrameRateLimit>",
    "</tt:FrameRateLimit>\n" +
    "                        <tt:EncodingInterval>" +
    "1</tt:EncodingInterval>\n" +
    "                        <tt:BitrateLimit>",
    "</tt:BitrateLimit>\n" +
    "                    </tt:RateControl>\n" +
    "                </tt:VideoEncoderConfiguration>"
  ]

  /** The literal parts of the audio f-string, around its 5 fields. */
  const AUDIO_TEXT: seq<string> := [
    "\n                <tt:AudioEncoderConfiguration" +
    " token=\"AudioEncoder_",
    "\">\n" +
    "                    <tt:Name>",
    " Audio Encoder</tt:Name>\n" +
    "                    <tt:UseCount>1</tt:UseCount>\n" +
    "                    <tt:Encoding>",
    "</tt:Encoding>\n" +
    "                    <tt:Bitrate>",
    "</tt:Bitrate>\n" +
    "                    <tt:SampleRate>",
    "</tt:SampleRate>\n" +
    "                </tt:AudioEncoderConfiguration>"
  ]

  const PROFILE_CLOSE := "\n            </trt:Profiles>"

  /** The values the video f-string interpolates, in order. */
  function VideoFields(key: string, data: ProfileData): (fields: seq<string>)
    ensures |fields| == |VIDEO_TEXT| - 1
  {
    var v := data.video;
    [key, data.name, IntToString(v.width), IntToString(v.height), key, data.name, v.encoding,
     IntToString(v.width), IntToString(v.height), IntToString(v.framerate), IntToString(v.bitrate)]
  }

  /** The values the audio f-string interpolates, in order. */
  function AudioFields(key: string, name: string, audio: AudioEncoder): (fields: seq<string>)
    ensures |fields| == |AUDIO_TEXT| - 1
  {
    [key, name, audio.encoding, IntToString(audio.bitrate), IntToString(audio.sampleRate)]
  }

  function VideoXml(key: string, data: ProfileData): string {
    Fill(VIDEO_TEXT, VideoFields(key, data))
  }

  /** The audio part, present only for a profile with an `audio_encoder` entry. */
  function AudioXml(key: string, data: ProfileData): string {
    if data.audio.Some? then Fill(AUDIO_TEXT, AudioFields(key, data.name, data.audio.value)) else ""
  }

  /** The block one loop iteration appends for a `(profile_token, profile_data)` item. */
  function ProfileXml(item: (string, ProfileData)): string {
    VideoXml(item.0, item.1) + AudioXml(item.0, item.1) + PROFILE_CLOSE
  }

  /** The accumulated `profiles_xml`: the blocks of the items, in order. */
  function ProfilesXml(items: seq<(string, ProfileData)>): string {
    ConcatMap(ProfileXml, items)
  }

  /** Rendering distributes over concatenation: each item contributes its own block, in order. */
  lemma ProfilesXmlAppend(a: seq<(string, ProfileData)>, b: seq<(string, ProfileData)>)
    ensures ProfilesXml(a + b) == ProfilesXml(a) + ProfilesXml(b)
  {
    ConcatMapAppend(ProfileXml, a, b);
  }

  /** The video part opens with the profile token and carries the profile's name and encoding. */
  lemma VideoXmlShape(key: string, data: ProfileData)
    ensures IsPrefix(VIDEO_TEXT[0] + key, VideoXml(key, data))
    ensures Contains(VideoXml(key, data), data.name) && Contains(VideoXml(key, data), data.video.encoding)
  {
    FillStart(VIDEO_TEXT, VideoFields(key, data));
    FillContains(VIDEO_TEXT, VideoFields(key, data), 1);
    FillContains(VIDEO_TEXT, VideoFields(key, data), 6);
  }

  /**
   * A block opens with its profile token, names the profile and its video encoding, carries the
   * audio part exactly when the profile has an audio encoder, and closes the `trt:Profiles` element.
   */
  lemma ProfileXmlShape(item: (string, ProfileData))
    ensures IsPrefix(VIDEO_TEXT[0] + item.0, ProfileXml(item))
    ensures Contains(ProfileXml(item), item.1.name) && Contains(ProfileXml(item), item.1.video.encoding)
    ensures IsSuffix(PROFILE_CLOSE, ProfileXml(item))
    ensures item.1.audio.Some? ==> Contains(ProfileXml(item), AUDIO_TEXT[0] + item.0)
    ensures item.1.audio.None? ==> ProfileXml(item) == VideoXml(item.0, item.1) + PROFILE_CLOSE
  {
    var video, audio := VideoXml(item.0, item.1), AudioXml(item.0, item.1);
    VideoXmlShape(item.0, item.1);
    FirstOfThree(video, audio, PROFILE_CLOSE, VIDEO_TEXT[0] + item.0, item.1.name);
    FirstOfThree(video, audio, PROFILE_CLOSE, VIDEO_TEXT[0] + item.0, item.1.video.encoding);
    if item.1.audio.Some? {
      FillStart(AUDIO_TEXT, AudioFields(item.0, item.1.name, item.1.audio.value));
      MiddleOfThree(video, audio, PROFILE_CLOSE, AUDIO_TEXT[0] + item.0);
    } else {
      AppendEmpty(video);
    }
  }

  /** The GetProfiles loop: per item, append the video part, the audio part when present, the close tag. */
  method RenderProfilesXml(items: seq<(string, ProfileData)>) returns (xml: string)
    ensures xml == ProfilesXml(items)
  {
    xml := "";
    var i := 0;
    while i < |items|
      invariant 0 <= i <= |items|
      invariant xml == ProfilesXml(items[..i])
    {
      var item := items[i];
      var before := xml;
      xml := xml + VideoXml(item.0, item.1);
      if item.1.audio.Some? {
        xml := xml + AudioXml(item.0, item.1);
      } else {
        AppendEmpty(xml);
      }
      xml := xml + PROFILE_CLOSE;
      AppendThree(before, VideoXml(item.0, item.1), AudioXml(item.0, item.1), PROFILE_CLOSE);
      ConcatMapSnoc(ProfileXml, items, i);
      i := i + 1;
    }
    assert items[..i] == items;
  }

  /** The literal parts of the GetProfilesResponse f-string, around `profiles_xml`. */
  const PROFILES_TEXT: seq<string> := [
    "\n        <trt:GetProfilesResponse>\n            ",
    "\n        </trt:GetProfilesResponse>"
  ]

  function ProfilesBody(profilesXml: string): string {
    Fill(PROFILES_TEXT, [profilesXml])
  }

  // ---------------------------------------------------------------- GetStreamUri

  /**
   * The profile GetStreamUri serves: the text of the first `trt:ProfileToken` below the request
   * element when it is non-empty and names a profile, else Profile_1.
   */
  function StreamProfileToken(element: Option<Element>): (token: string)
    ensures IsProfileKey(token)
    ensures var ref := if element.None? then None else Find(element.value, QName(MEDIA_NS, "ProfileToken"));
      token == (if ref.Some? && ref.value.text.Some? && ref.value.text.value != "" && IsProfileKey(ref.value.text.value)
                then ref.value.text.value else "Profile_1")
  {
    MediaProfilesContent();
    var text := if element.None? then None
      else match Find(element.value, QName(MEDIA_NS, "ProfileToken"))
        case None => None
        case Some(ref) => ref.text;
    if text.None? || text.value == "" || !IsProfileKey(text.value) then "Profile_1" else text.value
  }

  /** A request without a ProfileToken, or with an unknown one, streams Profile_1. */
  lemma StreamTokenDefault(element: Option<Element>)
    requires element.None? || Find(element.value, QName(MEDIA_NS, "ProfileToken")).None? ||
             Find(element.value, QName(MEDIA_NS, "ProfileToken")).value.text !in {Some("Profile_1"), Some("Profile_2")}
    ensures StreamProfileToken(element) == "Profile_1"
  {
    MediaProfilesContent();
  }

  const STREAM_PREFIX := "rtsp://localhost:554/stream/"

  function StreamUri(token: string): (uri: string)
    ensures IsPrefix(STREAM_PREFIX, uri) && uri[|STREAM_PREFIX|..] == token
  {
    SelfPrefix(STREAM_PREFIX, token);
    STREAM_PREFIX + token
  }

  /** The literal parts of the GetStreamUriResponse f-string, around the stream URI. */
  const STREAM_URI_TEXT: seq<string> := [
    "\n        <trt:GetStreamUriResponse>\n" +
    "            <trt:MediaUri>\n" +
    "                <tt:Uri>",
    "</tt:Uri>\n" +
    "                <tt:InvalidAfterConnect>" +
    "false</tt:InvalidAfterConnect>\n" +
    "                <tt:InvalidAfterReboot>" +
    "false</tt:InvalidAfterReboot>\n" +
    "                <tt:Timeout>PT30S</tt:Timeout>\n" +
    "            </trt:MediaUri>\n" +
    "        </trt:GetStreamUriResponse>"
  ]

  function StreamUriBody(uri: string): string {
    Fill(STREAM_URI_TEXT, [uri])
  }

  // ---------------------------------------------------------------- the endpoints

  datatype Service = Device | Media | Ptz

  /** The operations the root endpoint advertises for each service. */
  function Operations(service: Service): seq<string> {
    match service
    case Device => ["GetDeviceInformation", "GetCapabilities", "GetServices", "GetSystemDateAndTime"]
    case Media => ["GetProfiles", "GetStreamUri", "GetVideoSources"]
    case Ptz => ["GetConfigurations", "GetNodes", "GetStatus", "AbsoluteMove", "RelativeMove", "ContinuousMove", "Stop"]
  }

  /**
   * The body an endpoint chose: the profile list, a stream URI, the date-and-time response for a
   * clock reading, or one of the fixed response texts (named by its action).
   */
  datatype Body = ProfileList | MediaUri(uri: string) | CurrentDateAndTime(utcMicros: int) | Fixed(action: string)

  /** The `body_content` text of the bodies the model renders; None for the others. */
  function BodyXml(body: Body): Option<string> {
    match body
    case ProfileList => Some(ProfilesBody(ProfilesXml(MEDIA_PROFILES)))
    case MediaUri(uri) => Some(StreamUriBody(uri))
    case _ => None
  }

  /** What an endpoint answers: 401 with AUTH_FAULT, 400 with a detail, or the body it chose. */
  datatype Outcome =
    | Unauthorized
    | BadRequest(detail: string)
    | Dispatched(action: string, body: Body)

  /** The HTTP status: a dispatched body reaches `create_soap_response`, which raises (500). */
  function StatusCode(o: Outcome): (code: int)
    ensures o.Unauthorized? <==> code == 401
    ensures o.BadRequest? <==> code == 400
    ensures o.Dispatched? <==> code == 500
  {
    match o
    case Unauthorized => 401
    case BadRequest(_) => 400
    case Dispatched(_, _) => 500
  }

  /** Python's rendering of the action in "Unsupported action: {action}". */
  function ActionText(action: Option<string>): string {
    if action.None? then "None" else action.value
  }

  /** The body a service's table gives an action; None for an action outside the table. */
  function Handler(service: Service, ctx: Context, request: SoapRequest): (b: Option<Body>)
    requires request.action.Some?
    ensures b.Some? <==> request.action.value in Operations(service)
  {
    var action := request.action.value;
    match service
    case Device =>
      if action == "GetDeviceInformation" then Some(Fixed(action))
      else if action == "GetCapabilities" then Some(Fixed(action))
      else if action == "GetServices" then Some(Fixed(action))
      else if action == "GetSystemDateAndTime" then Some(CurrentDateAndTime(ctx.now))
      else None
    case Media =>
      if action == "GetProfiles" then Some(ProfileList)
      else if action == "GetStreamUri" then Some(MediaUri(StreamUri(StreamProfileToken(request.element))))
      else if action == "GetVideoSources" then Some(Fixed(action))
      else None
    case Ptz =>
      if action == "GetConfigurations" then Some(Fixed(action))
      else if action == "GetNodes" then Some(Fixed(action))
      else if action == "GetStatus" then Some(Fixed(action))
      else if action == "AbsoluteMove" then Some(Fixed(action))
      else if action == "RelativeMove" then Some(Fixed(action))
      else if action == "ContinuousMove" then Some(Fixed(action))
      else if action == "Stop" then Some(Fixed(action))
      else None
  }

  /** The part of an endpoint after authentication: route the parsed action through the table. */
  function Route(service: Service, ctx: Context, request: SoapRequest): (o: Outcome)
    ensures !o.Unauthorized?
    ensures o.Dispatched? <==> request.action.Some? && request.action.value in Operations(service)
    ensures o.Dispatched? ==> request.action == Some(o.action)
    ensures o.BadRequest? ==> o.detail == "Unsupported action: " + ActionText(request.action)
  {
    if request.action.None? then BadRequest("Unsupported action: " + ActionText(request.action))
    else match Handler(service, ctx, request)
      case None => BadRequest("Unsupported action: " + ActionText(request.action))
      case Some(body) => Dispatched(request.action.value, body)
  }

  /** An endpoint once the authentication verdict `user` is known: 401 without a user, else the route. */
  function Endpoint(service: Service, ctx: Context, user: Option<string>, doc: Option<Element>): (o: Outcome)
    ensures o.Unauthorized? <==> user.None?
    ensures o.Dispatched? ==> o.action in Operations(service) && ParseSoapRequest(doc).action == Some(o.action)
    ensures o.BadRequest? ==> o.detail == "Unsupported action: " + ActionText(ParseSoapRequest(doc).action)
  {
    if user.None? then Unauthorized else Route(service, ctx, ParseSoapRequest(doc))
  }

  /**
   * An endpoint (`device_service`, `media_service`, `ptz_service`): authenticate, then parse the
   * action, then route it through the service's table.
   */
  function Dispatch(service: Service, ctx: Context, doc: Option<Element>): (o: Outcome)
    ensures o.Unauthorized? <==> AuthenticateRequest(ctx, doc).None?
    ensures o.Dispatched? ==> o.action in Operations(service) && ParseSoapRequest(doc).action == Some(o.action)
    ensures o.BadRequest? ==> o.detail == "Unsupported action: " + ActionText(ParseSoapRequest(doc).action)
  {
    Endpoint(service, ctx, AuthenticateRequest(ctx, doc), doc)
  }

  /**
   * The endpoint with the authentication its authors evidently meant: it answers every request
   * the endpoint as written answers other than 401 in the same way, and refuses fewer.
   */
  function DispatchIntended(service: Service, ctx: Context, doc: Option<Element>): (o: Outcome)
    ensures o.Unauthorized? <==> AuthenticateRequestIntended(ctx, doc).None?
    ensures !Dispatch(service, ctx, doc).Unauthorized? ==> o == Dispatch(service, ctx, doc)
    ensures o.Unauthorized? ==> Dispatch(service, ctx, doc).Unauthorized?
  {
    Endpoint(service, ctx, AuthenticateRequestIntended(ctx, doc), doc)
  }

  /** An authenticated request is dispatched exactly when its action is in the service's table. */
  lemma DispatchTableClosed(service: Service, ctx: Context, doc: Option<Element>)
    requires AuthenticateRequest(ctx, doc).Some?
    ensures Dispatch(service, ctx, doc).Dispatched? <==>
      ParseSoapRequest(doc).action.Some? && ParseSoapRequest(doc).action.value in Operations(service)
    ensures StatusCode(Dispatch(service, ctx, doc)) != 401
  {
  }

  /** A request that fails authentication gets 401 and the Sender fault, whatever its action. */
  lemma UnauthenticatedRejected(service: Service, ctx: Context, doc: Option<Element>)
    requires AuthenticateRequest(ctx, doc).None?
    ensures StatusCode(Dispatch(service, ctx, doc)) == 401
    ensures ParseFault(AUTH_FAULT) == Some(("Sender", "Authentication failed"))
  {
    AuthFaultContent();
  }

  /**
   * A request for the media `action` carrying the usual WS-Security header: a UsernameToken whose
   * Username and Password carry only text.
   */
  function LeafRequest(action: string): Element {
    Element(QName(SOAP_ENV_NS, "Envelope"), map[], None, [
      Element(QName(SOAP_ENV_NS, "Header"), map[], None, [LeafToken("admin", "admin123")]),
      Element(QName(SOAP_ENV_NS, "Body"), map[], None, [Element(QName(MEDIA_NS, action), map[], None, [])])])
  }

  /** The Security header of the request is the leaf token. */
  lemma LeafRequestSecurity(action: string)
    ensures Find(LeafRequest(action), QName(WSSE_NS, "Security")) == Some(LeafToken("admin", "admin123"))
  {
    var header := LeafRequest(action).children[0];
    assert |header.tag| != |QName(WSSE_NS, "Security")|;
    assert FindIn(header.children, QName(WSSE_NS, "Security")) == Some(LeafToken("admin", "admin123"));
  }

  /** The Body of the request is its second child, whose one child is the action element. */
  lemma LeafRequestBody(action: string)
    ensures Find(LeafRequest(action), QName(SOAP_ENV_NS, "Body")) == Some(LeafRequest(action).children[1])
  {
    var doc := LeafRequest(action);
    var header := doc.children[0];
    var security := header.children[0];
    var usernameToken := security.children[0];
    var username, password := usernameToken.children[0], usernameToken.children[1];
    var tag := QName(SOAP_ENV_NS, "Body");
    assert |username.tag| != |tag| && |password.tag| != |tag|;
    assert FindIn(password.children, tag).None? && FindIn(username.children, tag).None?;
    assert FindIn([password][1..], tag).None?;
    assert FindIn([password], tag).None?;
    assert usernameToken.children[1..] == [password];
    assert FindIn(usernameToken.children, tag).None?;
    assert security.children[1..] == [] && header.children[1..] == [];
    assert |usernameToken.tag| != |tag| && |security.tag| != |tag|;
    assert FindIn(security.children, tag).None?;
    assert FindIn(header.children, tag).None?;
    assert header.tag != tag by {
      assert header.tag[|SOAP_ENV_NS| + 2] == 'H' && tag[|SOAP_ENV_NS| + 2] == 'B';
    }
    assert doc.children[1..] == [doc.children[1]];
    assert FindIn(doc.children[1..], tag) == Some(doc.children[1]);
  }

  /** Media action names are split off their namespace, which has no `}`. */
  lemma MediaActionTag(action: string)
    requires '}' !in action
    ensures AfterLast(QName(MEDIA_NS, action), '}') == action
  {
    assert '}' !in MEDIA_NS by {
      forall i | 0 <= i < |MEDIA_NS| ensures MEDIA_NS[i] != '}' {
        assert MEDIA_NS[i] in "http://www.onvif.org/ver10/media/wsdl";
      }
    }
    SplitQName(MEDIA_NS, action);
  }

  /** The endpoints as written answer 401 to the usual request with the right plaintext password of a known user. */
  lemma LeafRequestUnauthorized(service: Service, ctx: Context, action: string)
    ensures Dispatch(service, ctx, Some(LeafRequest(action))) == Unauthorized
    ensures StatusCode(Dispatch(service, ctx, Some(LeafRequest(action)))) == 401
  {
    LeafRequestSecurity(action);
    LeafCredentialsRejected(ctx);
  }

  /** With the intended guard the request authenticates as admin. */
  lemma LeafRequestAuthenticated(ctx: Context, action: string)
    ensures AuthenticateRequestIntended(ctx, Some(LeafRequest(action))) == Some("admin")
  {
    LeafRequestSecurity(action);
    LeafCredentialsRejected(ctx);
  }

  /** The request names its action. */
  lemma LeafRequestAction(action: string)
    requires '}' !in action
    ensures ParseSoapRequest(Some(LeafRequest(action))).action == Some(action)
  {
    LeafRequestBody(action);
    MediaActionTag(action);
  }

  /** With the intended guard the same request is authenticated, and GetProfiles lists the profiles. */
  lemma LeafRequestIntended(ctx: Context)
    ensures DispatchIntended(Media, ctx, Some(LeafRequest("GetProfiles"))) == Dispatched("GetProfiles", ProfileList)
  {
    var doc := Some(LeafRequest("GetProfiles"));
    LeafRequestAuthenticated(ctx, "GetProfiles");
    LeafRequestAction("GetProfiles");
    var request := ParseSoapRequest(doc);
    MediaProfilesRoute(ctx, request);
    assert DispatchIntended(Media, ctx, doc) == Route(Media, ctx, request);
  }

  /** GetStreamUri answers with the stream of the requested profile, or of Profile_1. */
  lemma MediaStreamUri(ctx: Context, request: SoapRequest)
    requires request.action == Some("GetStreamUri")
    ensures Route(Media, ctx, request) ==
      Dispatched("GetStreamUri", MediaUri(STREAM_PREFIX + StreamProfileToken(request.element)))
  {
  }

  /** GetProfiles lists the media profiles. */
  lemma MediaProfilesRoute(ctx: Context, request: SoapRequest)
    requires request.action == Some("GetProfiles")
    ensures Route(Media, ctx, request) == Dispatched("GetProfiles", ProfileList)
  {
  }

  /** GetVideoSources answers with its fixed body. */
  lemma MediaVideoSourcesRoute(ctx: Context, request: SoapRequest)
    requires request.action == Some("GetVideoSources")
    ensures Route(Media, ctx, request) == Dispatched("GetVideoSources", Fixed("GetVideoSources"))
  {
  }

  /** Any other action, or none, is refused with 400 and names the action. */
  lemma MediaOtherRoute(ctx: Context, request: SoapRequest)
    requires request.action !in {Some("GetProfiles"), Some("GetStreamUri"), Some("GetVideoSources")}
    ensures Route(Media, ctx, request) == BadRequest("Unsupported action: " + ActionText(request.action))
  {
  }

  /**
   * `media_service` after authentication, with the GetStreamUri token lookup and the GetProfiles
   * loop run in place. It reaches the outcome Route specifies and the `body_content` text
   * BodyXml specifies.
   */
  method MediaRoute(ctx: Context, request: SoapRequest) returns (o: Outcome, bodyContent: Option<string>)
    ensures o == Route(Media, ctx, request)
    ensures bodyContent == (if o.Dispatched? then BodyXml(o.body) else None)
  {
    var action := request.action;
    if action == Some("GetProfiles") {
      var profilesXml := RenderProfilesXml(MEDIA_PROFILES);
      MediaProfilesRoute(ctx, request);
      o, bodyContent := Dispatched("GetProfiles", ProfileList), Some(ProfilesBody(profilesXml));
    } else if action == Some("GetStreamUri") {
      var element := request.element;
      var profileToken: Option<string> := None;
      if element.Some? {
        var profileRef := Find(element.value, QName(MEDIA_NS, "ProfileToken"));
        if profileRef.Some? {
          profileToken := profileRef.value.text;
        }
      }
      var token;
      if profileToken.None? || profileToken.value == "" || !IsProfileKey(profileToken.value) {
        token := "Profile_1";
      } else {
        token := profileToken.value;
      }
      var streamUri := STREAM_PREFIX + token;
      MediaStreamUri(ctx, request);
      o, bodyContent := Dispatched("GetStreamUri", MediaUri(streamUri)), Some(StreamUriBody(streamUri));
    } else if action == Some("GetVideoSources") {
      MediaVideoSourcesRoute(ctx, request);
      o, bodyContent := Dispatched("GetVideoSources", Fixed("GetVideoSources")), None;
    } else {
      MediaOtherRoute(ctx, request);
      o, bodyContent := BadRequest("Unsupported action: " + ActionText(action)), None;
    }
  }

  /** `media_service`: the Sender fault for a request that fails authentication, else MediaRoute. */
  method MediaService(ctx: Context, doc: Option<Element>) returns (o: Outcome, bodyContent: Option<string>)
    ensures o == Dispatch(Media, ctx, doc)
    ensures bodyContent == (if o.Dispatched? then BodyXml(o.body) else None)
  {
    var user := AuthenticateRequest(ctx, doc);
    if user.None? {
      return Unauthorized, None;
    }
    var request := ParseSoapRequest(doc);
    o, bodyContent := MediaRoute(ctx, request);
  }
}
